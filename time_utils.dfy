/**
 * Meal-period classification, random choice from a list with exclusions,
 * and "HH:MM" formatting. The clock and the random-number source are
 * parameters: `hour` and `minute` are what `Date` reports, `random` is what
 * `Math.random()` returned.
 */
module TimeUtils {
  import opened Wrappers
  import opened Digits

  /** The four meal periods, each with its key and its display name. */
  datatype MealPeriod = Breakfast | Lunch | Dinner | Supper {
    /** The `key` of the period object getMealPeriod returns. */
    function Key(): (k: string)
      ensures k in {"breakfast", "lunch", "dinner", "supper"}
    {
      match this
      case Breakfast => "breakfast"
      case Lunch => "lunch"
      case Dinner => "dinner"
      case Supper => "supper"
    }

    /** The `name` of the period object getMealPeriod returns. */
    function Name(): (n: string)
      ensures n in {"早餐时间", "午餐时间", "晚餐时间", "夜宵时间"}
    {
      match this
      case Breakfast => "早餐时间"
      case Lunch => "午餐时间"
      case Dinner => "晚餐时间"
      case Supper => "夜宵时间"
    }
  }

  /** Both the key and the name identify the period. */
  lemma PeriodIdentifiedByKeyAndName(a: MealPeriod, b: MealPeriod)
    ensures a.Key() == b.Key() <==> a == b
    ensures a.Name() == b.Name() <==> a == b
  {
  }

  /**
   * The if-chain over the hour. The lunch test comes before the dinner test,
   * so hour 17, which passes both, is lunch.
   */
  function GetMealPeriod(hour: int): (p: MealPeriod)
    ensures p == Breakfast <==> 6 <= hour <= 9
    ensures p == Lunch <==> 10 <= hour <= 17
    ensures p == Dinner <==> 18 <= hour <= 20
    ensures p == Supper <==> hour < 6 || 21 <= hour
  {
    if 6 <= hour < 10 then Breakfast
    else if 10 <= hour <= 17 then Lunch
    else if 17 <= hour < 21 then Dinner
    else Supper
  }

  /** `foodList.filter(food => !excludeList.includes(food))`. */
  function Available(foodList: seq<string>, excludeList: seq<string>): (r: seq<string>)
    ensures |r| <= |foodList|
    ensures forall x :: x in r <==> x in foodList && x !in excludeList
    ensures forall x :: multiset(r)[x] == if x in excludeList then 0 else multiset(foodList)[x]
    decreases |foodList|
  {
    if foodList == [] then []
    else
      var rest := Available(foodList[1..], excludeList);
      assert foodList == [foodList[0]] + foodList[1..];
      if foodList[0] in excludeList then rest else [foodList[0]] + rest
  }

  /** Filtering a concatenation filters each part in place: order is kept. */
  lemma {:induction false} AvailableAppend(a: seq<string>, b: seq<string>, excludeList: seq<string>)
    ensures Available(a + b, excludeList) == Available(a, excludeList) + Available(b, excludeList)
    decreases |a|
  {
    if a == [] {
      assert a + b == b;
    } else {
      assert (a + b)[1..] == a[1..] + b;
      AvailableAppend(a[1..], b, excludeList);
    }
  }

  /** `Math.floor(random * n)` for a `random` in [0, 1). */
  function RandomIndex(random: real, n: nat): (i: nat)
    requires 0.0 <= random < 1.0 && n > 0
    ensures i < n
  {
    assert random * n as real < n as real;
    (random * n as real).Floor
  }

  /** Every index can be drawn: the draw i / n gives i. */
  lemma RandomIndexReachesAll(i: nat, n: nat)
    requires i < n
    ensures 0.0 <= i as real / n as real < 1.0
    ensures RandomIndex(i as real / n as real, n) == i
  {
  }

  /**
   * `getRandomFood(foodList, excludeList)`: absent when nothing survives the
   * exclusions, otherwise the drawn element of the filtered list.
   */
  function GetRandomFood(foodList: seq<string>, excludeList: seq<string>, random: real): (r: Option<string>)
    requires 0.0 <= random < 1.0
    ensures r.None? <==> forall x :: x in foodList ==> x in excludeList
    ensures r.Some? ==> r.value in foodList && r.value !in excludeList
    ensures r.Some? ==> exists i :: 0 <= i < |Available(foodList, excludeList)| && r.value == Available(foodList, excludeList)[i]
  {
    var available := Available(foodList, excludeList);
    if |available| == 0 then None
    else
      assert available[0] in available;
      Some(available[RandomIndex(random, |available|)])
  }

  /** With the default empty exclusion list a non-empty list always yields a food. */
  lemma RandomFoodDefaultExclusion(foodList: seq<string>, random: real)
    requires 0.0 <= random < 1.0 && foodList != []
    ensures GetRandomFood(foodList, [], random).Some?
  {
  }

  /** Example: excluding "a" and "b" from ["a", "b", "c"] leaves only "c". */
  lemma RandomFoodOnlyRemaining(random: real)
    requires 0.0 <= random < 1.0
    ensures GetRandomFood(["a", "b", "c"], ["a", "b"], random) == Some("c")
    ensures GetRandomFood(["a"], ["a"], random) == None
  {
  }

  /** `String(n).padStart(width, "0")`. */
  function PadStart(s: string, width: nat): (r: string)
    ensures |r| == if |s| < width then width else |s|
    ensures r[|r| - |s|..] == s
    ensures forall k :: 0 <= k < |r| - |s| ==> r[k] == '0'
  {
    if |s| < width then Zeros(width - |s|) + s else s
  }

  function TwoDigits(n: nat): (r: string)
    ensures n < 100 ==> |r| == 2 && AllDigits(r) && Value(r) == n
  {
    var s := DecimalString(n);
    var pad := if |s| < 2 then 2 - |s| else 0;
    ValueOfDecimalString(n);
    ValueOfZeroPrefix(pad, s);
    assert PadStart(s, 2) == Zeros(pad) + s;
    PadStart(s, 2)
  }

  /**
   * `formatCurrentTime()` at the given time. For an hour and a minute that a
   * `Date` can report the result is "HH:MM", each side zero-padded to two
   * digits and reading back as the value it shows.
   */
  function FormatCurrentTime(hour: nat, minute: nat): (r: string)
    ensures hour < 24 && minute < 60 ==>
      |r| == 5 && r[2] == ':' && AllDigits(r[..2]) && AllDigits(r[3..])
      && Value(r[..2]) == hour && Value(r[3..]) == minute
  {
    var h := TwoDigits(hour);
    var m := TwoDigits(minute);
    JoinedAtColon(h, m);
    h + ":" + m
  }

  lemma JoinedAtColon(h: string, m: string)
    ensures var r := h + ":" + m;
      |h| == 2 && |m| == 2 ==> |r| == 5 && r[..2] == h && r[2] == ':' && r[3..] == m
  {
  }

  /** Example: hour 9, minute 5 reads "09:05". */
  lemma FormatNineOhFive()
    ensures FormatCurrentTime(9, 5) == "09:05"
  {
  }
}
