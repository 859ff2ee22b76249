/**
 * `findNumbersInObject` and its inner `scan`: a depth-first walk over a
 * decoded JSON value that fills three write-once slots, `petrol`, `diesel`
 * and `updated_at`, from keys recognised by name.
 */
module FindNumbers {
  import opened Wrappers
  import opened JsRuntime

  /** The two prices the scan looks for. */
  datatype Field = Petrol | Diesel

  /** The alias lists exactly as the script writes them. */
  const PetrolKeys: seq<string> := ["petrol", "petrol_price", "petrolPrice", "petrol_rate", "p"]
  const DieselKeys: seq<string> := ["diesel", "diesel_price", "dieselPrice", "diesel_rate", "d"]

  function Aliases(f: Field): seq<string> {
    match f
    case Petrol => PetrolKeys
    case Diesel => DieselKeys
  }

  /**
   * `keys.includes(kn)` as written: the lower-cased key is compared with the
   * aliases as they stand, so an alias with an upper-case letter is dead.
   */
  predicate IsAliasAsWritten(f: Field, kn: string) {
    kn in Aliases(f)
  }

  /** The aliases lower-cased, so that every listed alias can match. */
  function LowerAliases(f: Field): (r: seq<string>)
    ensures |r| == |Aliases(f)|
    ensures forall i :: 0 <= i < |r| ==> r[i] == Lower(Aliases(f)[i])
  {
    seq(|Aliases(f)|, i requires 0 <= i < |Aliases(f)| => Lower(Aliases(f)[i]))
  }

  /** The case-insensitive alias test of the corrected finding: every listed alias can match. */
  predicate IsAliasIgnoringCase(f: Field, kn: string) {
    kn in LowerAliases(f)
  }

  /** Which alias test a walk uses: the script's, or the corrected one. */
  datatype Matching = AsWritten | CaseInsensitive

  predicate AliasMatch(m: Matching, f: Field, kn: string) {
    match m
    case AsWritten => IsAliasAsWritten(f, kn)
    case CaseInsensitive => IsAliasIgnoringCase(f, kn)
  }

  /** `kn.includes('updated') || kn.includes('date') || kn.includes('time')`. */
  predicate IsDateName(kn: string) {
    Contains(kn, "updated") || Contains(kn, "date") || Contains(kn, "time")
  }

  /** The numeric test of lines 29 and 30 passes (and so does not throw). */
  predicate LooksNumeric(host: Host, v: Value) {
    NumericTest(host, v) == Normal(true)
  }

  /** A price slot is truthy when it holds a number other than 0 and NaN. */
  predicate PriceTruthy(slot: Option<JsNumber>) {
    slot.Some? && NumberTruthy(slot.value)
  }

  /** The timestamp slot is truthy when it holds a non-empty string. */
  predicate TextTruthy(slot: Option<string>) {
    slot.Some? && slot.value != ""
  }

  /** The three slots; `None` is JavaScript's `null`. */
  datatype Found = Found(petrol: Option<JsNumber>, diesel: Option<JsNumber>, updatedAt: Option<string>)

  const Unset := Found(None, None, None)

  function Price(acc: Found, f: Field): Option<JsNumber> {
    match f
    case Petrol => acc.petrol
    case Diesel => acc.diesel
  }

  /** Line 29 or 30 reaches its numeric test: the slot is falsy and the key is an alias. */
  predicate TestsPrice(m: Matching, f: Field, slot: Option<JsNumber>, kn: string) {
    !PriceTruthy(slot) && AliasMatch(m, f, kn)
  }

  /** Line 31 reaches `String(v)`: the timestamp is falsy and the key names a date. */
  predicate TestsDate(slot: Option<string>, kn: string) {
    !TextTruthy(slot) && IsDateName(kn)
  }

  /** One price slot after key `k` with value `v` is seen (lines 29 and 30). */
  function Offer(host: Host, m: Matching, f: Field, slot: Option<JsNumber>, k: string, v: Value): Option<JsNumber> {
    if TestsPrice(m, f, slot, Lower(k)) && LooksNumeric(host, v) then Some(ToNumber(host, v).value) else slot
  }

  /**
   * The three slots after key `k` with value `v` is seen (lines 27-31), when
   * no conversion there throws (see `VisitThrows`).
   */
  function Visit(host: Host, m: Matching, acc: Found, k: string, v: Value): Found {
    Found(
      Offer(host, m, Petrol, acc.petrol, k, v),
      Offer(host, m, Diesel, acc.diesel, k, v),
      if TestsDate(acc.updatedAt, Lower(k)) && ToJsString(host, v).Normal? then Some(ToJsString(host, v).value)
      else acc.updatedAt)
  }

  /** One of lines 29-31 calls `String(v)` and it throws a `TypeError`. */
  predicate VisitThrows(host: Host, m: Matching, acc: Found, k: string, v: Value) {
    var kn := Lower(k);
    ToJsString(host, v).Throw?
    && (TestsPrice(m, Petrol, acc.petrol, kn) || TestsPrice(m, Diesel, acc.diesel, kn) || TestsDate(acc.updatedAt, kn))
  }

  /** The slots after `scan(o)` runs from slots `acc`; a truthy slot is never changed. */
  function ScanValue(host: Host, m: Matching, acc: Found, o: Value): (r: Found)
    decreases o, KeyCount(o) + 1
    ensures PriceTruthy(acc.petrol) ==> r.petrol == acc.petrol
    ensures PriceTruthy(acc.diesel) ==> r.diesel == acc.diesel
    ensures TextTruthy(acc.updatedAt) ==> r.updatedAt == acc.updatedAt
    ensures !HasKeys(o) ==> r == acc
  {
    if HasKeys(o) then ScanFrom(host, m, acc, o, 0) else acc
  }

  /** The slots after the loop of `scan(o)` runs over the keys from index `i` on. */
  function ScanFrom(host: Host, m: Matching, acc: Found, o: Value, i: nat): (r: Found)
    requires i <= KeyCount(o)
    decreases o, KeyCount(o) - i
    ensures PriceTruthy(acc.petrol) ==> r.petrol == acc.petrol
    ensures PriceTruthy(acc.diesel) ==> r.diesel == acc.diesel
    ensures TextTruthy(acc.updatedAt) ==> r.updatedAt == acc.updatedAt
  {
    if i == KeyCount(o) then acc
    else
      var v := ChildAt(o, i);
      var acc' := Visit(host, m, acc, KeyAt(o, i), v);
      ScanFrom(host, m, if IsObjectType(v) then ScanValue(host, m, acc', v) else acc', o, i + 1)
  }

  /** `scan(o)`, run from slots `acc`, throws. */
  predicate ScanThrows(host: Host, m: Matching, acc: Found, o: Value)
    decreases o, KeyCount(o) + 1
  {
    HasKeys(o) && ThrowsFrom(host, m, acc, o, 0)
  }

  /** The loop of `scan(o)` throws on one of the keys from index `i` on. */
  predicate ThrowsFrom(host: Host, m: Matching, acc: Found, o: Value, i: nat)
    requires i <= KeyCount(o)
    decreases o, KeyCount(o) - i
  {
    i < KeyCount(o) &&
      var k, v := KeyAt(o, i), ChildAt(o, i);
      var acc' := Visit(host, m, acc, k, v);
      || VisitThrows(host, m, acc, k, v)
      || (IsObjectType(v) && ScanThrows(host, m, acc', v))
      || ThrowsFrom(host, m, if IsObjectType(v) then ScanValue(host, m, acc', v) else acc', o, i + 1)
  }

  /** The closure of `findNumbersInObject`: its three variables and `scan`. */
  class Scanner {
    const host: Host
    var petrol: Option<JsNumber>
    var diesel: Option<JsNumber>
    var updatedAt: Option<string>

    function State(): Found
      reads this
    {
      Found(petrol, diesel, updatedAt)
    }

    /** `let petrol = null, diesel = null, updated_at = null`. */
    constructor (host: Host)
      ensures this.host == host && State() == Unset
    {
      this.host := host;
      petrol, diesel, updatedAt := None, None, None;
    }

    /** Lines 27-31 for key `k` with value `v`: `thrown` reports a `String(v)` that throws. */
    method VisitKey(k: string, v: Value) returns (thrown: bool)
      modifies this
      ensures thrown == VisitThrows(host, AsWritten, old(State()), k, v)
      ensures !thrown ==> State() == Visit(host, AsWritten, old(State()), k, v)
    {
      var kn := Lower(k);
      if !PriceTruthy(petrol) && kn in PetrolKeys {
        var numeric := NumericTest(host, v);
        if numeric.Throw? {
          return true;
        }
        if numeric.value {
          petrol := Some(ToNumber(host, v).value);
        }
      }
      assert petrol == Offer(host, AsWritten, Petrol, old(petrol), k, v);
      if !PriceTruthy(diesel) && kn in DieselKeys {
        var numeric := NumericTest(host, v);
        if numeric.Throw? {
          return true;
        }
        if numeric.value {
          diesel := Some(ToNumber(host, v).value);
        }
      }
      assert diesel == Offer(host, AsWritten, Diesel, old(diesel), k, v);
      if !TextTruthy(updatedAt) && IsDateName(kn) {
        var text := ToJsString(host, v);
        if text.Throw? {
          return true;
        }
        updatedAt := Some(text.value);
      }
      thrown := false;
    }

    /**
     * `scan(o)`: walks `o` and its descendants, filling unset or falsy
     * slots; `thrown` reports the `TypeError` that would leave it. The slots
     * after a throw are not observable, as the exception leaves
     * `findNumbersInObject`.
     */
    method Scan(o: Value) returns (thrown: bool)
      modifies this
      decreases o
      ensures thrown == ScanThrows(host, AsWritten, old(State()), o)
      ensures !thrown ==> State() == ScanValue(host, AsWritten, old(State()), o)
    {
      thrown := false;
      if HasKeys(o) {
        var n := KeyCount(o);
        var i := 0;
        while i < n
          invariant i <= n
          invariant ThrowsFrom(host, AsWritten, State(), o, i) == ScanThrows(host, AsWritten, old(State()), o)
          invariant ScanFrom(host, AsWritten, State(), o, i) == ScanValue(host, AsWritten, old(State()), o)
        {
          var k := KeyAt(o, i);
          var v := ChildAt(o, i);
          thrown := VisitKey(k, v);
          if thrown {
            return;
          }
          if IsObjectType(v) {
            thrown := Scan(v);
            if thrown {
              return;
            }
          }
          i := i + 1;
        }
      }
    }
  }

  /** `findNumbersInObject(obj)`: the three slots, or the `TypeError` the walk throws. */
  method FindNumbersInObject(host: Host, obj: Value) returns (r: Completion<Found>)
    ensures r.Throw? <==> ScanThrows(host, AsWritten, Unset, obj)
    ensures r.Normal? ==> r.value == ScanValue(host, AsWritten, Unset, obj)
  {
    var scanner := new Scanner(host);
    var thrown := scanner.Scan(obj);
    if thrown {
      return Throw;
    }
    r := Normal(Found(scanner.petrol, scanner.diesel, scanner.updatedAt));
  }

  // ---------------------------------------------------------------------------
  // A reference definition: the walk flattened into the list of pairs it visits

  /** The (key, value) pairs `scan(o)` visits, in the order it visits them: depth first, keys in enumeration order. */
  function Visits(o: Value): seq<(string, Value)>
    decreases o, KeyCount(o) + 1
  {
    if HasKeys(o) then VisitsFrom(o, 0) else []
  }

  function VisitsFrom(o: Value, i: nat): seq<(string, Value)>
    requires i <= KeyCount(o)
    decreases o, KeyCount(o) - i
  {
    if i == KeyCount(o) then []
    else [(KeyAt(o, i), ChildAt(o, i))] + Visits(ChildAt(o, i)) + VisitsFrom(o, i + 1)
  }

  /** The slots after visiting the pairs `vs` one after the other. */
  function VisitAll(host: Host, m: Matching, acc: Found, vs: seq<(string, Value)>): Found
    decreases |vs|
  {
    if vs == [] then acc else VisitAll(host, m, Visit(host, m, acc, vs[0].0, vs[0].1), vs[1..])
  }

  /** Visiting the pairs `vs` one after the other throws at one of them. */
  predicate ThrowsAll(host: Host, m: Matching, acc: Found, vs: seq<(string, Value)>)
    decreases |vs|
  {
    vs != [] &&
      (VisitThrows(host, m, acc, vs[0].0, vs[0].1)
       || ThrowsAll(host, m, Visit(host, m, acc, vs[0].0, vs[0].1), vs[1..]))
  }

  lemma {:induction false} VisitAllAppend(host: Host, m: Matching, acc: Found, a: seq<(string, Value)>, b: seq<(string, Value)>)
    ensures VisitAll(host, m, acc, a + b) == VisitAll(host, m, VisitAll(host, m, acc, a), b)
    decreases |a|
  {
    if a == [] {
      assert a + b == b;
    } else {
      assert (a + b)[1..] == a[1..] + b;
      VisitAllAppend(host, m, Visit(host, m, acc, a[0].0, a[0].1), a[1..], b);
    }
  }

  lemma {:induction false} ThrowsAllAppend(host: Host, m: Matching, acc: Found, a: seq<(string, Value)>, b: seq<(string, Value)>)
    ensures ThrowsAll(host, m, acc, a + b) <==> ThrowsAll(host, m, acc, a) || ThrowsAll(host, m, VisitAll(host, m, acc, a), b)
    decreases |a|
  {
    if a == [] {
      assert a + b == b;
    } else {
      assert (a + b)[1..] == a[1..] + b;
      ThrowsAllAppend(host, m, Visit(host, m, acc, a[0].0, a[0].1), a[1..], b);
    }
  }

  lemma VisitAllCons(host: Host, m: Matching, acc: Found, k: string, v: Value, rest: seq<(string, Value)>)
    ensures VisitAll(host, m, acc, [(k, v)] + rest) == VisitAll(host, m, Visit(host, m, acc, k, v), rest)
    ensures ThrowsAll(host, m, acc, [(k, v)] + rest)
        <==> VisitThrows(host, m, acc, k, v) || ThrowsAll(host, m, Visit(host, m, acc, k, v), rest)
  {
    assert ([(k, v)] + rest)[1..] == rest;
  }

  /** The recursive walk is the same as visiting the flattened list from left to right. */
  lemma {:induction false} ScanIsVisitAll(host: Host, m: Matching, acc: Found, o: Value)
    ensures ScanValue(host, m, acc, o) == VisitAll(host, m, acc, Visits(o))
    decreases o, KeyCount(o) + 1
  {
    if HasKeys(o) {
      ScanFromIsVisitAll(host, m, acc, o, 0);
    }
  }

  lemma {:induction false} ScanFromIsVisitAll(host: Host, m: Matching, acc: Found, o: Value, i: nat)
    requires i <= KeyCount(o)
    ensures ScanFrom(host, m, acc, o, i) == VisitAll(host, m, acc, VisitsFrom(o, i))
    decreases o, KeyCount(o) - i
  {
    if i < KeyCount(o) {
      var k, v := KeyAt(o, i), ChildAt(o, i);
      var acc1 := Visit(host, m, acc, k, v);
      var acc2 := if IsObjectType(v) then ScanValue(host, m, acc1, v) else acc1;
      var rest := VisitsFrom(o, i + 1);
      calc {
        ScanFrom(host, m, acc, o, i);
        ScanFrom(host, m, acc2, o, i + 1);
        { ScanFromIsVisitAll(host, m, acc2, o, i + 1); }
        VisitAll(host, m, acc2, rest);
        { ScanIsVisitAll(host, m, acc1, v); }
        VisitAll(host, m, VisitAll(host, m, acc1, Visits(v)), rest);
        { VisitAllAppend(host, m, acc1, Visits(v), rest); }
        VisitAll(host, m, acc1, Visits(v) + rest);
        { VisitAllCons(host, m, acc, k, v, Visits(v) + rest); }
        VisitAll(host, m, acc, [(k, v)] + (Visits(v) + rest));
        { assert VisitsFrom(o, i) == [(k, v)] + (Visits(v) + rest); }
        VisitAll(host, m, acc, VisitsFrom(o, i));
      }
    }
  }

  /** The recursive walk throws exactly when visiting the flattened list from left to right throws. */
  lemma {:induction false} ScanThrowsIsThrowsAll(host: Host, m: Matching, acc: Found, o: Value)
    ensures ScanThrows(host, m, acc, o) <==> ThrowsAll(host, m, acc, Visits(o))
    decreases o, KeyCount(o) + 1
  {
    if HasKeys(o) {
      ThrowsFromIsThrowsAll(host, m, acc, o, 0);
    }
  }

  lemma {:induction false} ThrowsFromIsThrowsAll(host: Host, m: Matching, acc: Found, o: Value, i: nat)
    requires i <= KeyCount(o)
    ensures ThrowsFrom(host, m, acc, o, i) <==> ThrowsAll(host, m, acc, VisitsFrom(o, i))
    decreases o, KeyCount(o) - i
  {
    if i < KeyCount(o) {
      var k, v := KeyAt(o, i), ChildAt(o, i);
      var acc1 := Visit(host, m, acc, k, v);
      var acc2 := if IsObjectType(v) then ScanValue(host, m, acc1, v) else acc1;
      var rest := VisitsFrom(o, i + 1);
      calc {
        ThrowsFrom(host, m, acc, o, i);
        VisitThrows(host, m, acc, k, v) || (IsObjectType(v) && ScanThrows(host, m, acc1, v))
          || ThrowsFrom(host, m, acc2, o, i + 1);
        { ThrowsFromIsThrowsAll(host, m, acc2, o, i + 1);
          ScanThrowsIsThrowsAll(host, m, acc1, v);
          ScanIsVisitAll(host, m, acc1, v); }
        VisitThrows(host, m, acc, k, v) || ThrowsAll(host, m, acc1, Visits(v))
          || ThrowsAll(host, m, VisitAll(host, m, acc1, Visits(v)), rest);
        { ThrowsAllAppend(host, m, acc1, Visits(v), rest); }
        VisitThrows(host, m, acc, k, v) || ThrowsAll(host, m, acc1, Visits(v) + rest);
        { VisitAllCons(host, m, acc, k, v, Visits(v) + rest); }
        ThrowsAll(host, m, acc, [(k, v)] + (Visits(v) + rest));
        { assert VisitsFrom(o, i) == [(k, v)] + (Visits(v) + rest); }
        ThrowsAll(host, m, acc, VisitsFrom(o, i));
      }
    }
  }

  // ---------------------------------------------------------------------------
  // When the walk throws

  /** The walk throws only at a visited value whose `String(v)` throws. */
  lemma {:induction false} ThrowsAllNeedsFailingConversion(host: Host, m: Matching, acc: Found, vs: seq<(string, Value)>)
    requires forall j :: 0 <= j < |vs| ==> ToJsString(host, vs[j].1).Normal?
    ensures !ThrowsAll(host, m, acc, vs)
    decreases |vs|
  {
    if vs != [] {
      assert ToJsString(host, vs[0].1).Normal?;
      ThrowsAllNeedsFailingConversion(host, m, Visit(host, m, acc, vs[0].0, vs[0].1), vs[1..]);
    }
  }

  /** A tree none of whose visited values fails `String(v)` (no object with its own `toString`) is scanned without a throw. */
  lemma ScanThrowsOnlyOnFailingConversion(host: Host, m: Matching, acc: Found, o: Value)
    requires forall j :: 0 <= j < |Visits(o)| ==> ToJsString(host, Visits(o)[j].1).Normal?
    ensures !ScanThrows(host, m, acc, o)
  {
    ScanThrowsIsThrowsAll(host, m, acc, o);
    ThrowsAllNeedsFailingConversion(host, m, acc, Visits(o));
  }

  /** Reaching a conversion that fails throws, whatever follows. */
  lemma {:induction false} ThrowAtVisit(host: Host, m: Matching, acc: Found, vs: seq<(string, Value)>, i: nat)
    requires i < |vs|
    requires !ThrowsAll(host, m, acc, vs[..i])
    requires VisitThrows(host, m, VisitAll(host, m, acc, vs[..i]), vs[i].0, vs[i].1)
    ensures ThrowsAll(host, m, acc, vs)
  {
    assert vs == vs[..i] + vs[i..];
    ThrowsAllAppend(host, m, acc, vs[..i], vs[i..]);
  }

  // ---------------------------------------------------------------------------
  // A reference definition per slot: keep the first truthy candidate

  /**
   * A write-once slot offered `cands` in order: a truthy slot is kept, a
   * falsy or empty one takes the next candidate.
   */
  function KeepFirst<T>(slot: Option<T>, cands: seq<T>, truthy: T -> bool): Option<T>
    decreases |cands|
  {
    if cands == [] then slot
    else KeepFirst(if slot.Some? && truthy(slot.value) then slot else Some(cands[0]), cands[1..], truthy)
  }

  predicate NonEmpty(s: string) {
    s != ""
  }

  /** Key `k` with value `v` offers a number to price `f`: an alias key whose value looks numeric. */
  predicate OffersPrice(host: Host, m: Matching, f: Field, k: string, v: Value) {
    AliasMatch(m, f, Lower(k)) && LooksNumeric(host, v)
  }

  /** The numbers offered to price `f` by the pairs `vs`. */
  function Offers(host: Host, m: Matching, f: Field, vs: seq<(string, Value)>): seq<JsNumber>
    decreases |vs|
  {
    if vs == [] then []
    else
      (if OffersPrice(host, m, f, vs[0].0, vs[0].1) then [ToNumber(host, vs[0].1).value] else [])
      + Offers(host, m, f, vs[1..])
  }

  /** The strings offered to `updated_at` by the pairs `vs`: a key naming an update, a date or a time. */
  function DateOffers(host: Host, vs: seq<(string, Value)>): seq<string>
    decreases |vs|
  {
    if vs == [] then []
    else
      (if IsDateName(Lower(vs[0].0)) && ToJsString(host, vs[0].1).Normal? then [ToJsString(host, vs[0].1).value] else [])
      + DateOffers(host, vs[1..])
  }

  lemma {:induction false} KeepFirstKeepsTruthy<T>(slot: Option<T>, cands: seq<T>, truthy: T -> bool)
    requires slot.Some? && truthy(slot.value)
    ensures KeepFirst(slot, cands, truthy) == slot
    decreases |cands|
  {
    if cands != [] {
      KeepFirstKeepsTruthy(slot, cands[1..], truthy);
    }
  }

  /** Without a truthy slot, the result is the first truthy candidate. */
  lemma {:induction false} KeepFirstFindsFirstTruthy<T>(slot: Option<T>, cands: seq<T>, truthy: T -> bool, i: nat)
    requires !(slot.Some? && truthy(slot.value))
    requires i < |cands| && truthy(cands[i])
    requires forall j :: 0 <= j < i ==> !truthy(cands[j])
    ensures KeepFirst(slot, cands, truthy) == Some(cands[i])
    decreases i
  {
    if i == 0 {
      KeepFirstKeepsTruthy(Some(cands[0]), cands[1..], truthy);
    } else {
      KeepFirstFindsFirstTruthy(Some(cands[0]), cands[1..], truthy, i - 1);
    }
  }

  /** Without any truthy value, the last candidate is what remains. */
  lemma {:induction false} KeepFirstNoneTruthy<T>(slot: Option<T>, cands: seq<T>, truthy: T -> bool)
    requires !(slot.Some? && truthy(slot.value))
    requires |cands| > 0
    requires forall j :: 0 <= j < |cands| ==> !truthy(cands[j])
    ensures KeepFirst(slot, cands, truthy) == Some(cands[|cands| - 1])
    decreases |cands|
  {
    if |cands| > 1 {
      KeepFirstNoneTruthy(Some(cands[0]), cands[1..], truthy);
    }
  }

  lemma {:induction false} VisitAllPrice(host: Host, m: Matching, acc: Found, vs: seq<(string, Value)>, f: Field)
    ensures Price(VisitAll(host, m, acc, vs), f) == KeepFirst(Price(acc, f), Offers(host, m, f, vs), NumberTruthy)
    decreases |vs|
  {
    if vs != [] {
      var acc1 := Visit(host, m, acc, vs[0].0, vs[0].1);
      VisitAllPrice(host, m, acc1, vs[1..], f);
      assert Price(acc1, f) == Offer(host, m, f, Price(acc, f), vs[0].0, vs[0].1) by {
        match f
        case Petrol =>
        case Diesel =>
      }
      var head := if OffersPrice(host, m, f, vs[0].0, vs[0].1) then [ToNumber(host, vs[0].1).value] else [];
      var rest := Offers(host, m, f, vs[1..]);
      assert Offers(host, m, f, vs) == head + rest;
      if head == [] {
        assert head + rest == rest;
      } else {
        assert (head + rest)[1..] == rest;
      }
    }
  }

  lemma {:induction false} VisitAllUpdatedAt(host: Host, m: Matching, acc: Found, vs: seq<(string, Value)>)
    requires !ThrowsAll(host, m, acc, vs)
    ensures VisitAll(host, m, acc, vs).updatedAt == KeepFirst(acc.updatedAt, DateOffers(host, vs), NonEmpty)
    decreases |vs|
  {
    if vs != [] {
      var acc1 := Visit(host, m, acc, vs[0].0, vs[0].1);
      VisitAllUpdatedAt(host, m, acc1, vs[1..]);
      var v := vs[0].1;
      var head := if IsDateName(Lower(vs[0].0)) && ToJsString(host, v).Normal? then [ToJsString(host, v).value] else [];
      var rest := DateOffers(host, vs[1..]);
      assert DateOffers(host, vs) == head + rest;
      if head == [] {
        assert head + rest == rest;
      } else {
        assert (head + rest)[1..] == rest;
      }
    }
  }

  // ---------------------------------------------------------------------------
  // What `scan` promises

  /** Each price ends as the first truthy number offered in depth-first key order (or the last falsy one). */
  lemma ScanPriceIsFirstTruthyOffer(host: Host, m: Matching, acc: Found, o: Value, f: Field)
    ensures Price(ScanValue(host, m, acc, o), f) == KeepFirst(Price(acc, f), Offers(host, m, f, Visits(o)), NumberTruthy)
  {
    ScanIsVisitAll(host, m, acc, o);
    VisitAllPrice(host, m, acc, Visits(o), f);
  }

  /** Without a throw, `updated_at` ends as the string form of the first date-like key's value that is not empty. */
  lemma ScanUpdatedAtIsFirstNonEmpty(host: Host, m: Matching, acc: Found, o: Value)
    requires !ScanThrows(host, m, acc, o)
    ensures ScanValue(host, m, acc, o).updatedAt == KeepFirst(acc.updatedAt, DateOffers(host, Visits(o)), NonEmpty)
  {
    ScanIsVisitAll(host, m, acc, o);
    ScanThrowsIsThrowsAll(host, m, acc, o);
    VisitAllUpdatedAt(host, m, acc, Visits(o));
  }

  /** From empty slots, the price is the first truthy number offered anywhere in the tree. */
  lemma FindNumbersTakesFirstTruthyOffer(host: Host, m: Matching, o: Value, f: Field, i: nat)
    requires i < |Offers(host, m, f, Visits(o))| && NumberTruthy(Offers(host, m, f, Visits(o))[i])
    requires forall j :: 0 <= j < i ==> !NumberTruthy(Offers(host, m, f, Visits(o))[j])
    ensures Price(ScanValue(host, m, Unset, o), f) == Some(Offers(host, m, f, Visits(o))[i])
  {
    ScanPriceIsFirstTruthyOffer(host, m, Unset, o, f);
    KeepFirstFindsFirstTruthy(None, Offers(host, m, f, Visits(o)), NumberTruthy, i);
  }

  /** When every offer is 0 or NaN, the last one stays: a falsy find is overwritten by the next. */
  lemma FindNumbersKeepsLastFalsyOffer(host: Host, m: Matching, o: Value, f: Field)
    requires |Offers(host, m, f, Visits(o))| > 0
    requires forall j :: 0 <= j < |Offers(host, m, f, Visits(o))| ==> !NumberTruthy(Offers(host, m, f, Visits(o))[j])
    ensures Price(ScanValue(host, m, Unset, o), f) == Some(Offers(host, m, f, Visits(o))[|Offers(host, m, f, Visits(o))| - 1])
  {
    ScanPriceIsFirstTruthyOffer(host, m, Unset, o, f);
    KeepFirstNoneTruthy(None, Offers(host, m, f, Visits(o)), NumberTruthy);
  }

  lemma {:induction false} OffersEmpty(host: Host, m: Matching, f: Field, vs: seq<(string, Value)>)
    requires forall j :: 0 <= j < |vs| ==> !OffersPrice(host, m, f, vs[j].0, vs[j].1)
    ensures Offers(host, m, f, vs) == []
    decreases |vs|
  {
    if vs != [] {
      OffersEmpty(host, m, f, vs[1..]);
    }
  }

  /** A price changes only through an alias key whose value is a number or starts with a digit. */
  lemma ScanWithoutNumericAliasKeepsPrice(host: Host, m: Matching, acc: Found, o: Value, f: Field)
    requires forall j :: 0 <= j < |Visits(o)| ==> !OffersPrice(host, m, f, Visits(o)[j].0, Visits(o)[j].1)
    ensures Price(ScanValue(host, m, acc, o), f) == Price(acc, f)
  {
    ScanPriceIsFirstTruthyOffer(host, m, acc, o, f);
    OffersEmpty(host, m, f, Visits(o));
  }

  /** Every pair of a nested object or array is visited, right after the key that holds it. */
  lemma {:induction false} VisitsEnterChild(o: Value, i: nat)
    requires i < KeyCount(o)
    ensures var vs := VisitsFrom(o, i);
      && vs[0] == (KeyAt(o, i), ChildAt(o, i))
      && vs[1..1 + |Visits(ChildAt(o, i))|] == Visits(ChildAt(o, i))
  {
    var c := Visits(ChildAt(o, i));
    var vs := [(KeyAt(o, i), ChildAt(o, i))] + c + VisitsFrom(o, i + 1);
    assert vs[1..1 + |c|] == c;
  }

  /** An array's keys are numerals, so under either alias test they never name a price or a timestamp. */
  lemma ArrayIndexKeysAreInert(m: Matching, i: nat, f: Field)
    ensures !AliasMatch(m, f, Lower(DecimalString(i)))
    ensures !IsDateName(Lower(DecimalString(i)))
  {
    var d := DecimalString(i);
    LowerKeepsDigits(d);
    forall a | a in LowerAliases(f) ensures d != a {
      assert !IsDigit(a[0]);
    }
    forall a | a in Aliases(f) ensures d != a {
      assert !IsDigit(a[0]);
    }
    MissingCharNotContained(d, "updated", 0);
    MissingCharNotContained(d, "date", 0);
    MissingCharNotContained(d, "time", 0);
  }

  lemma LowerKeepsDigits(d: string)
    requires forall i :: 0 <= i < |d| ==> IsDigit(d[i])
    ensures Lower(d) == d
  {
  }

  /** A string that lacks one of the characters of `sub` does not contain `sub`. */
  lemma {:induction false} MissingCharNotContained(s: string, sub: string, j: nat)
    requires j < |sub|
    requires sub[j] !in s
    ensures !Contains(s, sub)
    decreases |s|
  {
    if |sub| <= |s| {
      assert s[..|sub|][j] == s[j];
      MissingCharNotContained(s[1..], sub, j);
    }
  }

  lemma LowerAliasLists()
    ensures LowerAliases(Petrol) == ["petrol", "petrol_price", "petrolprice", "petrol_rate", "p"]
    ensures LowerAliases(Diesel) == ["diesel", "diesel_price", "dieselprice", "diesel_rate", "d"]
  {
    assert Lower("petrol") == "petrol";
    assert Lower("petrol_price") == "petrol_price";
    assert Lower("petrolPrice") == "petrolprice";
    assert Lower("petrol_rate") == "petrol_rate";
    assert Lower("p") == "p";
    assert Lower("diesel") == "diesel";
    assert Lower("diesel_price") == "diesel_price";
    assert Lower("dieselPrice") == "dieselprice";
    assert Lower("diesel_rate") == "diesel_rate";
    assert Lower("d") == "d";
  }

  // ---------------------------------------------------------------------------
  // Worked examples (any host)

  /** The walk of an object with one key. */
  lemma ScanOfOneKey(host: Host, m: Matching, acc: Found, k: string, v: Value)
    ensures var a := Visit(host, m, acc, k, v);
      && ScanValue(host, m, acc, Obj([(k, v)])) == (if IsObjectType(v) then ScanValue(host, m, a, v) else a)
      && (ScanThrows(host, m, acc, Obj([(k, v)])) <==> VisitThrows(host, m, acc, k, v) || (IsObjectType(v) && ScanThrows(host, m, a, v)))
  {
    var o := Obj([(k, v)]);
    assert KeyAt(o, 0) == k && ChildAt(o, 0) == v;
    var a := Visit(host, m, acc, k, v);
    var b := if IsObjectType(v) then ScanValue(host, m, a, v) else a;
    assert ScanFrom(host, m, acc, o, 0) == ScanFrom(host, m, b, o, 1) == b;
    assert ThrowsFrom(host, m, acc, o, 0) <==>
      VisitThrows(host, m, acc, k, v) || (IsObjectType(v) && ScanThrows(host, m, a, v)) || ThrowsFrom(host, m, b, o, 1);
  }

  /** The walk of an object with two keys. */
  lemma ScanOfTwoKeys(host: Host, m: Matching, acc: Found, k1: string, v1: Value, k2: string, v2: Value)
    ensures var a1 := Visit(host, m, acc, k1, v1);
      var b1 := if IsObjectType(v1) then ScanValue(host, m, a1, v1) else a1;
      var a2 := Visit(host, m, b1, k2, v2);
      && ScanValue(host, m, acc, Obj([(k1, v1), (k2, v2)])) == (if IsObjectType(v2) then ScanValue(host, m, a2, v2) else a2)
      && (ScanThrows(host, m, acc, Obj([(k1, v1), (k2, v2)])) <==>
           || VisitThrows(host, m, acc, k1, v1) || (IsObjectType(v1) && ScanThrows(host, m, a1, v1))
           || VisitThrows(host, m, b1, k2, v2) || (IsObjectType(v2) && ScanThrows(host, m, a2, v2)))
  {
    var o := Obj([(k1, v1), (k2, v2)]);
    assert KeyAt(o, 0) == k1 && ChildAt(o, 0) == v1;
    assert KeyAt(o, 1) == k2 && ChildAt(o, 1) == v2;
    var a1 := Visit(host, m, acc, k1, v1);
    var b1 := if IsObjectType(v1) then ScanValue(host, m, a1, v1) else a1;
    var a2 := Visit(host, m, b1, k2, v2);
    var b2 := if IsObjectType(v2) then ScanValue(host, m, a2, v2) else a2;
    assert ScanFrom(host, m, acc, o, 0) == ScanFrom(host, m, b1, o, 1);
    assert ScanFrom(host, m, b1, o, 1) == ScanFrom(host, m, b2, o, 2) == b2;
    assert ThrowsFrom(host, m, acc, o, 0) <==>
      VisitThrows(host, m, acc, k1, v1) || (IsObjectType(v1) && ScanThrows(host, m, a1, v1)) || ThrowsFrom(host, m, b1, o, 1);
    assert ThrowsFrom(host, m, b1, o, 1) <==>
      VisitThrows(host, m, b1, k2, v2) || (IsObjectType(v2) && ScanThrows(host, m, a2, v2)) || ThrowsFrom(host, m, b2, o, 2);
  }

  /** The key `petrol` names the petrol price and nothing else, under either alias test. */
  lemma PetrolKeyFacts(m: Matching)
    ensures AliasMatch(m, Petrol, Lower("petrol")) && !AliasMatch(m, Diesel, Lower("petrol"))
    ensures !IsDateName(Lower("petrol"))
  {
    LowerAliasLists();
    assert Lower("petrol") == "petrol" == PetrolKeys[0];
    MissingCharNotContained("petrol", "updated", 0);
    MissingCharNotContained("petrol", "date", 1);
    MissingCharNotContained("petrol", "time", 1);
  }

  /** The key `diesel` names the diesel price and nothing else, under either alias test. */
  lemma DieselKeyFacts(m: Matching)
    ensures AliasMatch(m, Diesel, Lower("diesel")) && !AliasMatch(m, Petrol, Lower("diesel"))
    ensures !IsDateName(Lower("diesel"))
  {
    LowerAliasLists();
    assert Lower("diesel") == "diesel" == DieselKeys[0];
    MissingCharNotContained("diesel", "updated", 0);
    MissingCharNotContained("diesel", "date", 1);
    MissingCharNotContained("diesel", "time", 0);
  }

  /** The key `petrolPrice` names the petrol price only under the corrected alias test. */
  lemma PetrolPriceKeyFacts(m: Matching)
    ensures AliasMatch(m, Petrol, Lower("petrolPrice")) <==> m == CaseInsensitive
    ensures !AliasMatch(m, Diesel, Lower("petrolPrice")) && !IsDateName(Lower("petrolPrice"))
  {
    CamelCaseAliasesUnreachableAsWritten("petrolPrice");
    CorrectedAliasesAddOnlyCamelCase(Petrol, "petrolPrice");
    LoweredPetrolPriceFacts(Lower("petrolPrice"));
  }

  lemma LoweredPetrolPriceFacts(kn: string)
    requires kn == "petrolprice"
    ensures !IsAliasAsWritten(Diesel, kn) && !IsAliasIgnoringCase(Diesel, kn) && !IsDateName(kn)
  {
    assert !IsAliasAsWritten(Diesel, kn) && !IsAliasIgnoringCase(Diesel, kn) by {
      LowerAliasLists();
    }
    MissingCharNotContained(kn, "updated", 0);
    MissingCharNotContained(kn, "date", 0);
    MissingCharNotContained(kn, "time", 2);
  }

  /** The key `date` names a timestamp. */
  lemma DateKeyIsDateName()
    ensures IsDateName(Lower("date"))
  {
    assert Lower("date") == "date";
    assert "date"[..4] == "date";
  }

  /** A record with both price keys, scanned alone, gives its own prices and does not throw. */
  lemma RecordWithBothPrices(host: Host, m: Matching, p: real, d: real)
    requires p != 0.0 && d != 0.0
    ensures ScanValue(host, m, Unset, Obj([("petrol", Num(Finite(p))), ("diesel", Num(Finite(d)))]))
         == Found(Some(Finite(p)), Some(Finite(d)), None)
    ensures !ScanThrows(host, m, Unset, Obj([("petrol", Num(Finite(p))), ("diesel", Num(Finite(d)))]))
  {
    PetrolKeyFacts(m);
    DieselKeyFacts(m);
    var o := Obj([("petrol", Num(Finite(p))), ("diesel", Num(Finite(d)))]);
    var acc1 := Visit(host, m, Unset, "petrol", Num(Finite(p)));
    assert acc1 == Found(Some(Finite(p)), None, None);
    var acc2 := Visit(host, m, acc1, "diesel", Num(Finite(d)));
    assert acc2 == Found(Some(Finite(p)), Some(Finite(d)), None);
    assert ScanFrom(host, m, Unset, o, 0) == ScanFrom(host, m, acc1, o, 1);
    assert ScanFrom(host, m, acc1, o, 1) == ScanFrom(host, m, acc2, o, 2);
    assert !ThrowsFrom(host, m, acc2, o, 2);
    assert !ThrowsFrom(host, m, acc1, o, 1);
    assert !ThrowsFrom(host, m, Unset, o, 0);
  }

  /** A price found as 0 is falsy, so a deeper match later in the walk replaces it. */
  lemma ZeroPriceIsOverwritten(host: Host, m: Matching)
    ensures ScanValue(host, m, Unset,
      Obj([("petrol", Num(Finite(0.0))), ("city", Obj([("Petrol", Str("101.2"))]))])).petrol
      == Some(host.parseNumber("101.2"))
  {
    var inner := Obj([("Petrol", Str("101.2"))]);
    var acc1 := Visit(host, m, Unset, "petrol", Num(Finite(0.0)));
    var acc2 := Visit(host, m, acc1, "city", inner);
    ScanOfTwoKeys(host, m, Unset, "petrol", Num(Finite(0.0)), "city", inner);
    assert acc1.petrol == Some(Finite(0.0)) by {
      PetrolKeyFacts(m);
    }
    assert acc2.petrol == acc1.petrol by {
      assert Lower("city") == "city";
      LowerAliasLists();
      VisitIgnoresKey(host, m, Petrol, acc1, "city", inner);
    }
    CapitalisedPetrolKey(host, m, acc2);
  }

  /** A key that is no alias of `f` under the alias test `m` leaves that price alone. */
  lemma VisitIgnoresKey(host: Host, m: Matching, f: Field, acc: Found, k: string, v: Value)
    requires !AliasMatch(m, f, Lower(k))
    ensures Price(Visit(host, m, acc, k, v), f) == Price(acc, f)
  {
    match f {
      case Petrol =>
      case Diesel =>
    }
  }

  /** `{"Petrol": "101.2"}` fills a falsy petrol slot with `Number("101.2")`: the key is lower-cased first. */
  lemma CapitalisedPetrolKey(host: Host, m: Matching, acc: Found)
    requires !PriceTruthy(acc.petrol)
    ensures ScanValue(host, m, acc, Obj([("Petrol", Str("101.2"))])).petrol == Some(host.parseNumber("101.2"))
  {
    var v := Str("101.2");
    ScanOfOneKey(host, m, acc, "Petrol", v);
    assert TestsPrice(m, Petrol, acc.petrol, Lower("Petrol")) by {
      assert Lower("Petrol") == "petrol" == Lower("petrol");
      PetrolKeyFacts(m);
    }
    assert LooksNumeric(host, v) by {
      assert ToJsString(host, v) == Normal("101.2");
      assert StartsWithDigit("101.2");
    }
    assert ToNumber(host, v) == Normal(host.parseNumber("101.2")) by {
      assert ToJsString(host, v) == Normal("101.2");
    }
    assert Offer(host, m, Petrol, acc.petrol, "Petrol", v) == Some(host.parseNumber("101.2"));
  }

  /** A date key whose object value has its own `toString` makes the walk throw. */
  lemma ToStringKeyUnderDateThrows(host: Host, m: Matching, o: Value, i: nat)
    requires i < |Visits(o)| && !ThrowsAll(host, m, Unset, Visits(o)[..i])
    requires HasOwnKey(Visits(o)[i].1, "toString")
    requires TestsDate(VisitAll(host, m, Unset, Visits(o)[..i]).updatedAt, Lower(Visits(o)[i].0))
    ensures ScanThrows(host, m, Unset, o)
  {
    ThrowAtVisit(host, m, Unset, Visits(o), i);
    ScanThrowsIsThrowsAll(host, m, Unset, o);
  }

  // ---------------------------------------------------------------------------
  // Finding: the camel-case aliases are compared with a lower-cased key

  /** As written, `petrolPrice` and `dieselPrice` can never equal a lower-cased key. */
  lemma CamelCaseAliasesUnreachableAsWritten(k: string)
    ensures Lower(k) != PetrolKeys[2] && Lower(k) != DieselKeys[2]
    ensures !IsAliasAsWritten(Petrol, Lower("petrolPrice")) && !IsAliasAsWritten(Diesel, Lower("dieselPrice"))
  {
    assert IsUpper(PetrolKeys[2][6]) && IsUpper(DieselKeys[2][6]);
    assert |Lower(k)| > 6 ==> !IsUpper(Lower(k)[6]);
    assert Lower("petrolPrice") == "petrolprice";
    assert Lower("dieselPrice") == "dieselprice";
  }

  /**
   * Corrected: the lower-cased aliases accept every key the written aliases
   * accept and, in addition, exactly the keys equal to a camel-case alias
   * up to case.
   */
  lemma CorrectedAliasesAddOnlyCamelCase(f: Field, k: string)
    ensures IsAliasIgnoringCase(f, Lower(k)) <==> IsAliasAsWritten(f, Lower(k)) || Lower(k) == Lower(Aliases(f)[2])
    ensures IsAliasIgnoringCase(Petrol, Lower("petrolPrice")) && IsAliasIgnoringCase(Diesel, Lower("DieselPrice"))
  {
    CamelCaseAliasesUnreachableAsWritten(k);
    LowerAliasLists();
    assert Lower(Aliases(f)[2]) == LowerAliases(f)[2];
    match f {
      case Petrol =>
        assert LowerAliases(f) == [PetrolKeys[0], PetrolKeys[1], Lower(PetrolKeys[2]), PetrolKeys[3], PetrolKeys[4]];
      case Diesel =>
        assert LowerAliases(f) == [DieselKeys[0], DieselKeys[1], Lower(DieselKeys[2]), DieselKeys[3], DieselKeys[4]];
    }
    assert Lower("petrolPrice") == LowerAliases(Petrol)[2] by {
      CamelCaseAliasesUnreachableAsWritten("petrolPrice");
    }
    assert Lower("DieselPrice") == LowerAliases(Diesel)[2] by {
      assert Lower("DieselPrice") == "dieselprice";
    }
  }

  /** `{"petrolPrice": x}`: the script's walk leaves petrol unset; the corrected walk takes `x`. */
  lemma CamelCaseKeyDecidesPetrol(host: Host, x: real)
    ensures ScanValue(host, AsWritten, Unset, Obj([("petrolPrice", Num(Finite(x)))])).petrol == None
    ensures ScanValue(host, CaseInsensitive, Unset, Obj([("petrolPrice", Num(Finite(x)))])).petrol == Some(Finite(x))
  {
    CamelCaseKeyScan(host, AsWritten, x);
    CamelCaseKeyScan(host, CaseInsensitive, x);
  }

  lemma CamelCaseKeyScan(host: Host, m: Matching, x: real)
    ensures ScanValue(host, m, Unset, Obj([("petrolPrice", Num(Finite(x)))])).petrol
         == if m == CaseInsensitive then Some(Finite(x)) else None
  {
    var o := Obj([("petrolPrice", Num(Finite(x)))]);
    var acc1 := Visit(host, m, Unset, "petrolPrice", Num(Finite(x)));
    assert acc1.petrol == if m == CaseInsensitive then Some(Finite(x)) else None by {
      PetrolPriceKeyFacts(m);
    }
    assert ScanValue(host, m, Unset, o) == ScanFrom(host, m, acc1, o, 1);
  }
}
