/** The analytics that `ChartSection` derives from the store's `allUsers`: four
    category histograms, the age-group histogram, the age-sorted height/weight
    series, three rounded means and the number of departments. */
module ChartSection {
  import opened Wrappers
  import opened Users
  import opened Histograms
  import opened AgeOrder

  // ---------------------------------------------------------------------------
  // Category histograms: gender, blood group, eye colour, department

  datatype Category = Gender | BloodGroup | EyeColor | Dept

  const Unknown: string := "unknown"

  function Field(u: User, c: Category): Option<string> {
    match c
    case Gender => u.gender
    case BloodGroup => u.bloodGroup
    case EyeColor => u.eyeColor
    case Dept => Department(u)
  }

  /** `user.gender || "unknown"` and its three siblings: a falsy field is
      labelled "unknown", any other value is its own label. */
  function Label(u: User, c: Category): (r: string)
    ensures TruthyString(Field(u, c)) ==> r == Field(u, c).value
    ensures !TruthyString(Field(u, c)) ==> r == Unknown
    ensures r != ""
  {
    StringOr(Field(u, c), Unknown)
  }

  function Labels(users: seq<User>, c: Category): seq<string> {
    seq(|users|, i requires 0 <= i < |users| => Label(users[i], c))
  }

  /** One of the four category reducers: one increment of the accumulator per user. */
  method CountBy(users: seq<User>, c: Category) returns (h: Histogram)
    ensures h == Tally(Labels(users, c))
  {
    var keys: seq<string> := [];
    var counts: map<string, nat> := map[];
    for i := 0 to |users|
      invariant Histogram(keys, counts) == Tally(Labels(users[..i], c))
    {
      var k := Label(users[i], c);
      LabelsAppend(users, i, c);
      TallyAppend(Labels(users[..i], c), k);
      var n := if k in counts then counts[k] else 0;
      if k !in counts {
        keys := keys + [k];
      }
      counts := counts[k := n + 1];
    }
    assert users[..|users|] == users;
    h := Histogram(keys, counts);
  }

  lemma LabelsAppend(users: seq<User>, i: nat, c: Category)
    requires i < |users|
    ensures Labels(users[..i + 1], c) == Labels(users[..i], c) + [Label(users[i], c)]
  {
    var prefix, next := users[..i], users[..i + 1];
    assert |Labels(next, c)| == |Labels(prefix, c) + [Label(users[i], c)]|;
    forall j | 0 <= j <= i
      ensures Labels(next, c)[j] == (Labels(prefix, c) + [Label(users[i], c)])[j]
    {
      if j < i {
        assert next[j] == prefix[j];
      }
    }
  }

  /** Every user is counted exactly once, so the plotted values add up to the
      number of users, and no bar or slice is empty. */
  lemma CategoryCountsSumToUsers(users: seq<User>, c: Category)
    ensures Sum(Values(Tally(Labels(users, c)))) == |users|
    ensures forall i :: 0 <= i < |Values(Tally(Labels(users, c)))| ==> Values(Tally(Labels(users, c)))[i] >= 1
  {
    TallySum(Labels(users, c));
    TallyCounts(Labels(users, c));
  }

  /** The count under each label is the number of users carrying it, and the
      i-th plotted value is the count of the i-th plotted key; in particular a
      user whose field is falsy is counted under "unknown" and no user is dropped. */
  lemma CategoryCountsUsers(users: seq<User>, c: Category)
    ensures forall k :: CountOf(Tally(Labels(users, c)), k) == multiset(Labels(users, c))[k]
    ensures |Values(Tally(Labels(users, c)))| == |Tally(Labels(users, c)).keys|
    ensures forall i :: 0 <= i < |Tally(Labels(users, c)).keys| ==>
      Values(Tally(Labels(users, c)))[i] == multiset(Labels(users, c))[Tally(Labels(users, c)).keys[i]]
    ensures forall i :: 0 <= i < |users| ==> Label(users[i], c) in Tally(Labels(users, c)).keys
    ensures (exists i :: 0 <= i < |users| && !TruthyString(Field(users[i], c))) ==>
      CountOf(Tally(Labels(users, c)), Unknown) >= 1
  {
    var labels := Labels(users, c);
    TallyCounts(labels);
    forall i | 0 <= i < |users|
      ensures Label(users[i], c) in Tally(labels).keys
    {
      assert labels[i] == Label(users[i], c);
    }
  }

  /** The keys passed to the charts are distinct and listed in the order in
      which the labels first occur among the users. */
  lemma CategoryKeysInFirstSeenOrder(users: seq<User>, c: Category)
    ensures forall i, j :: 0 <= i < j < |Tally(Labels(users, c)).keys| ==>
      Tally(Labels(users, c)).keys[i] != Tally(Labels(users, c)).keys[j]
    ensures FirstOccurrenceOrder(Tally(Labels(users, c)).keys, Labels(users, c))
  {
    TallyCounts(Labels(users, c));
    TallyKeyOrder(Labels(users, c));
  }

  /** `Object.keys(departments).length` (and `Object.keys(eyeColors).length`
      for the eye-colour chip): the number of distinct labels, "unknown"
      counting as one. */
  function DistinctCount(users: seq<User>, c: Category): (n: nat)
    ensures n == |set k | k in Labels(users, c)|
  {
    TallyKeyCount(Labels(users, c));
    |Tally(Labels(users, c)).keys|
  }

  // ---------------------------------------------------------------------------
  // Age groups

  const AgeGroupLabels: seq<string> := ["18-24", "25-34", "35-44", "45-54", "55+"]

  /** The bucket of a (truthy) age, by the source's chain of thresholds. */
  function AgeGroup(age: real): (r: string)
    ensures r in AgeGroupLabels
    ensures r == "18-24" <==> age < 25.0
    ensures r == "25-34" <==> 25.0 <= age < 35.0
    ensures r == "35-44" <==> 35.0 <= age < 45.0
    ensures r == "45-54" <==> 45.0 <= age < 55.0
    ensures r == "55+" <==> 55.0 <= age
  {
    if age < 25.0 then "18-24"
    else if age < 35.0 then "25-34"
    else if age < 45.0 then "35-44"
    else if age < 55.0 then "45-54"
    else "55+"
  }

  /** The buckets the age reducer increments, in user order; users with a
      falsy age contribute nothing. */
  function AgeLabels(users: seq<User>): (r: seq<string>)
    ensures |r| == NumberWithAge(users)
  {
    if users == [] then []
    else
      var last := users[|users| - 1];
      AgeLabels(users[..|users| - 1])
        + (if TruthyNumber(last.age) then [AgeGroup(last.age.value)] else [])
  }

  /** The number of users with a truthy age. */
  function NumberWithAge(users: seq<User>): nat {
    if users == [] then 0
    else NumberWithAge(users[..|users| - 1]) + (if TruthyNumber(users[|users| - 1].age) then 1 else 0)
  }

  /** The age-group reducer. */
  method CountAgeGroups(users: seq<User>) returns (h: Histogram)
    ensures h == Tally(AgeLabels(users))
  {
    var keys: seq<string> := [];
    var counts: map<string, nat> := map[];
    for i := 0 to |users|
      invariant Histogram(keys, counts) == Tally(AgeLabels(users[..i]))
    {
      assert users[..i + 1][..i] == users[..i];
      assert AgeLabels(users[..i + 1]) == AgeLabels(users[..i])
        + (if TruthyNumber(users[i].age) then [AgeGroup(users[i].age.value)] else []);
      if TruthyNumber(users[i].age) {
        var k := AgeGroup(users[i].age.value);
        TallyAppend(AgeLabels(users[..i]), k);
        var n := if k in counts then counts[k] else 0;
        if k !in counts {
          keys := keys + [k];
        }
        counts := counts[k := n + 1];
      } else {
        assert AgeLabels(users[..i + 1]) == AgeLabels(users[..i]) + [];
        assert AgeLabels(users[..i]) + [] == AgeLabels(users[..i]);
      }
    }
    assert users[..|users|] == users;
    h := Histogram(keys, counts);
  }

  lemma {:induction false} AgeLabelsInBuckets(users: seq<User>)
    ensures forall k :: k in AgeLabels(users) ==> k in AgeGroupLabels
  {
    if users != [] {
      AgeLabelsInBuckets(users[..|users| - 1]);
    }
  }

  lemma {:induction false} AgeLabelsCoverUsers(users: seq<User>)
    ensures forall i :: 0 <= i < |users| && TruthyNumber(users[i].age) ==>
      AgeGroup(users[i].age.value) in AgeLabels(users)
  {
    if users != [] {
      var init := users[..|users| - 1];
      AgeLabelsCoverUsers(init);
      forall i | 0 <= i < |init| ensures users[i] == init[i] { }
    }
  }

  lemma UnknownIsNoBucket()
    ensures Unknown !in AgeGroupLabels
  {
    assert Unknown[0] == 'u';
  }

  /** Users with a truthy age land in exactly one of the five buckets, users
      without one in none: the counts add up to the number of users with a
      truthy age, every key is one of the five bucket labels (never "unknown"),
      and each counted user's bucket is a key. */
  lemma AgeGroupsCountUsersWithAge(users: seq<User>)
    ensures Sum(Values(Tally(AgeLabels(users)))) == NumberWithAge(users)
    ensures forall k :: k in Tally(AgeLabels(users)).keys ==> k in AgeGroupLabels
    ensures Unknown !in Tally(AgeLabels(users)).keys
    ensures forall i :: 0 <= i < |users| && TruthyNumber(users[i].age) ==>
      CountOf(Tally(AgeLabels(users)), AgeGroup(users[i].age.value)) >= 1
  {
    var labels := AgeLabels(users);
    var h := Tally(labels);
    TallySum(labels);
    TallyCounts(labels);
    AgeLabelsInBuckets(users);
    UnknownIsNoBucket();
    AgeLabelsCoverUsers(users);
    forall i | 0 <= i < |users| && TruthyNumber(users[i].age)
      ensures CountOf(h, AgeGroup(users[i].age.value)) >= 1
    {
      assert AgeGroup(users[i].age.value) in labels;
    }
  }

  // ---------------------------------------------------------------------------
  // Height and weight by age

  /** `user.age && user.height` */
  predicate Plottable(u: User) {
    TruthyNumber(u.age) && TruthyNumber(u.height)
  }

  /** `.filter((user) => user.age && user.height)`, keeping the input order. */
  function KeepPlottable(users: seq<User>): (r: seq<User>)
    ensures forall u :: u in r ==> Plottable(u)
  {
    if users == [] then []
    else
      var init, last := users[..|users| - 1], users[|users| - 1];
      KeepPlottable(init) + (if Plottable(last) then [last] else [])
  }

  /** The filter keeps each user with a truthy age and height as often as it
      occurs, and no other user. */
  lemma {:induction false} KeepPlottableCounts(users: seq<User>)
    ensures forall u :: multiset(KeepPlottable(users))[u] == if Plottable(u) then multiset(users)[u] else 0
  {
    if users != [] {
      var init, last := users[..|users| - 1], users[|users| - 1];
      assert users == init + [last];
      KeepPlottableCounts(init);
    }
  }

  /** The filter keeps a list whose users all have a truthy age and height
      unchanged. */
  lemma {:induction false} KeepAllPlottable(users: seq<User>)
    requires forall i :: 0 <= i < |users| ==> Plottable(users[i])
    ensures KeepPlottable(users) == users
  {
    if users != [] {
      var init, last := users[..|users| - 1], users[|users| - 1];
      KeepAllPlottable(init);
      assert Plottable(last);
      assert KeepPlottable(users) == KeepPlottable(init) + [last];
      assert users == init + [last];
    }
  }

  /** The users behind the series: those with a truthy age and height, stably
      sorted by ascending age. */
  function Rows(users: seq<User>): (r: seq<User>)
    ensures SortedByAge(r)
    ensures |r| == |KeepPlottable(users)|
    ensures forall i :: 0 <= i < |r| ==> Plottable(r[i])
  {
    var r := SortByAge(KeepPlottable(users));
    assert |multiset(r)| == |multiset(KeepPlottable(users))|;
    assert forall i :: 0 <= i < |r| ==> r[i] in r;
    r
  }

  datatype Series = Series(ages: seq<real>, heights: seq<real>, weights: seq<real>)

  /** The age, the height and the weight (or 0) of each row, in row order. */
  function SeriesFrom(rows: seq<User>): Series {
    Series(
      seq(|rows|, i requires 0 <= i < |rows| => AgeOf(rows[i])),
      seq(|rows|, i requires 0 <= i < |rows| => NumberOrZero(rows[i].height)),
      seq(|rows|, i requires 0 <= i < |rows| => NumberOrZero(rows[i].weight)))
  }

  /** `ageHeightData`: three aligned arrays, one entry per row. */
  function SeriesOf(users: seq<User>): (s: Series)
    ensures |s.ages| == |s.heights| == |s.weights| == |Rows(users)|
  {
    SeriesFrom(Rows(users))
  }

  /** The reduce that pushes each sorted row onto the three arrays: `user.age!`,
      `user.height!` and `user.weight || 0`. */
  method CollectSeries(rows: seq<User>) returns (s: Series)
    requires forall i :: 0 <= i < |rows| ==> Plottable(rows[i])
    ensures s == SeriesFrom(rows)
  {
    var ages, heights, weights := [], [], [];
    for i := 0 to |rows|
      invariant |ages| == |heights| == |weights| == i
      invariant forall k :: 0 <= k < i ==> ages[k] == AgeOf(rows[k])
      invariant forall k :: 0 <= k < i ==> heights[k] == NumberOrZero(rows[k].height)
      invariant forall k :: 0 <= k < i ==> weights[k] == NumberOrZero(rows[k].weight)
    {
      ages := ages + [rows[i].age.value];
      heights := heights + [rows[i].height.value];
      weights := weights + [NumberOrZero(rows[i].weight)];
    }
    s := Series(ages, heights, weights);
  }

  /** `ageHeightData.weights.map((w) => w * 2)` */
  function PlottedWeights(s: Series): (w: seq<real>)
    ensures |w| == |s.weights|
    ensures forall i :: 0 <= i < |w| ==> w[i] == 2.0 * s.weights[i]
  {
    seq(|s.weights|, i requires 0 <= i < |s.weights| => s.weights[i] * 2.0)
  }

  /** The three arrays are aligned, one entry per user with a truthy age and
      height; the ages are non-decreasing and all of them and all heights are
      truthy; users of equal age keep their input order. */
  lemma SeriesShape(users: seq<User>)
    ensures |SeriesOf(users).ages| == |SeriesOf(users).heights| == |SeriesOf(users).weights|
      == |KeepPlottable(users)|
    ensures forall i, j :: 0 <= i < j < |SeriesOf(users).ages| ==>
      SeriesOf(users).ages[i] <= SeriesOf(users).ages[j]
    ensures forall i :: 0 <= i < |SeriesOf(users).ages| ==>
      SeriesOf(users).ages[i] != 0.0 && SeriesOf(users).heights[i] != 0.0
    ensures forall a :: WithAge(Rows(users), a) == WithAge(KeepPlottable(users), a)
  {
    var rows, s := Rows(users), SeriesOf(users);
    forall i, j | 0 <= i < j < |s.ages|
      ensures s.ages[i] <= s.ages[j]
    {
      assert s.ages[i] == AgeOf(rows[i]) && s.ages[j] == AgeOf(rows[j]);
    }
    forall i | 0 <= i < |s.ages|
      ensures s.ages[i] != 0.0 && s.heights[i] != 0.0
    {
      assert Plottable(rows[i]);
    }
  }

  /** The plotted weight of row i is that user's weight, or 0, doubled; the
      plotted height is the height unchanged. */
  lemma PlottedWeightsDoubled(users: seq<User>)
    ensures |PlottedWeights(SeriesOf(users))| == |Rows(users)|
    ensures forall i :: 0 <= i < |Rows(users)| ==>
      PlottedWeights(SeriesOf(users))[i] == 2.0 * NumberOrZero(Rows(users)[i].weight)
      && Rows(users)[i].height == Some(SeriesOf(users).heights[i])
  {
  }

  // ---------------------------------------------------------------------------
  // Summary statistics

  datatype Measure = AgeReading | HeightReading | WeightReading

  function Reading(u: User, m: Measure): Option<real> {
    match m
    case AgeReading => u.age
    case HeightReading => u.height
    case WeightReading => u.weight
  }

  /** `allUsers.reduce((sum, user) => sum + (user.age || 0), 0)` and its siblings. */
  function Total(users: seq<User>, m: Measure): (t: real)
    ensures (forall i :: 0 <= i < |users| ==> !TruthyNumber(Reading(users[i], m))) ==> t == 0.0
  {
    if users == [] then 0.0
    else Total(users[..|users| - 1], m) + NumberOrZero(Reading(users[|users| - 1], m))
  }

  /** `Math.round`: the nearest integer, halves rounded up. */
  function Round(x: real): (r: int)
    ensures r as real - 0.5 <= x < r as real + 0.5
  {
    (x + 0.5).Floor
  }

  /** A stat card's value: the total over all users divided by the number of
      ALL users (not of those having the reading), rounded. */
  function Mean(users: seq<User>, m: Measure): (r: int)
    requires |users| > 0
    ensures (r as real - 0.5) * |users| as real <= Total(users, m)
    ensures Total(users, m) < (r as real + 0.5) * |users| as real
  {
    RoundedQuotient(Total(users, m), |users| as real);
    Round(Total(users, m) / |users| as real)
  }

  /** Rounding `t / n` gives an `r` with `t` within half of `n` of `r * n`. */
  lemma RoundedQuotient(t: real, n: real)
    requires n > 0.0
    ensures (Round(t / n) as real - 0.5) * n <= t < (Round(t / n) as real + 0.5) * n
  {
    var x := t / n;
    var r := Round(x) as real;
    DivideThenScale(t, n);
    ScaleLe(r - 0.5, x, n);
    ScaleLt(x, r + 0.5, n);
    assert x * n < (r + 0.5) * n;
    assert t < (r + 0.5) * n;
  }

  lemma DivideThenScale(t: real, n: real)
    requires n > 0.0
    ensures (t / n) * n == t
  {
  }

  lemma ScaleLe(a: real, b: real, n: real)
    requires n > 0.0 && a <= b
    ensures a * n <= b * n
  {
  }

  lemma ScaleLt(a: real, b: real, n: real)
    requires n > 0.0 && a < b
    ensures a * n < b * n
  {
  }

  /** The sum over two lists joined is the sum of their sums. */
  lemma {:induction false} TotalAppend(a: seq<User>, b: seq<User>, m: Measure)
    ensures Total(a + b, m) == Total(a, m) + Total(b, m)
  {
    if b == [] {
      assert a + b == a;
    } else {
      var init := b[..|b| - 1];
      assert (a + b)[..|a + b| - 1] == a + init;
      TotalAppend(a, init, m);
    }
  }

  /** Users without a truthy reading add nothing to the total wherever they
      stand in the list, while they do add to the divisor of `Mean`. */
  lemma MissingReadingsAddNothing(users: seq<User>, extra: seq<User>, rest: seq<User>, m: Measure)
    requires forall u :: u in extra ==> !TruthyNumber(Reading(u, m))
    ensures Total(users + extra + rest, m) == Total(users + rest, m)
  {
    assert forall i :: 0 <= i < |extra| ==> extra[i] in extra;
    TotalAppend(users + extra, rest, m);
    TotalAppend(users, extra, m);
    TotalAppend(users, rest, m);
  }

  // ---------------------------------------------------------------------------
  // The whole section

  datatype AnalyticsView = AnalyticsView(
    genders: Histogram,
    ageGroups: Histogram,
    bloodGroups: Histogram,
    eyeColors: Histogram,
    departments: Histogram,
    series: Series,
    plottedWeights: seq<real>,
    meanAge: int,
    meanHeight: int,
    meanWeight: int,
    departmentCount: nat)

  /** Everything the analytics show. The department chip and the department
      stat card show the same number, the key count of the department chart;
      the plotted series are aligned. */
  function ViewOf(users: seq<User>): (v: AnalyticsView)
    requires |users| > 0
    ensures v.departmentCount == |v.departments.keys|
    ensures |v.plottedWeights| == |v.series.ages| == |v.series.heights| == |v.series.weights|
  {
    TallyKeyCount(Labels(users, Dept));
    AnalyticsView(
      Tally(Labels(users, Gender)),
      Tally(AgeLabels(users)),
      Tally(Labels(users, BloodGroup)),
      Tally(Labels(users, EyeColor)),
      Tally(Labels(users, Dept)),
      SeriesOf(users),
      PlottedWeights(SeriesOf(users)),
      Mean(users, AgeReading),
      Mean(users, HeightReading),
      Mean(users, WeightReading),
      DistinctCount(users, Dept))
  }

  /** What the component shows for a store state. */
  datatype Display = ErrorAlert(message: string) | LoadingSpinner | Analytics(view: AnalyticsView)

  /** The component body: an error alert when `chartsError` is truthy, the
      spinner while loading or while `allUsers` is empty, and otherwise the
      analytics of `allUsers`. */
  method Render(allUsers: seq<User>, chartsLoading: bool, chartsError: Option<string>) returns (d: Display)
    ensures d.ErrorAlert? <==> TruthyString(chartsError)
    ensures d.ErrorAlert? ==> d.message == chartsError.value
    ensures d.LoadingSpinner? <==> !TruthyString(chartsError) && (chartsLoading || allUsers == [])
    ensures d.Analytics? ==> |allUsers| > 0 && d.view == ViewOf(allUsers)
  {
    if TruthyString(chartsError) {
      return ErrorAlert(chartsError.value);
    }
    if chartsLoading || |allUsers| == 0 {
      return LoadingSpinner;
    }
    var genders := CountBy(allUsers, Gender);
    var ageGroups := CountAgeGroups(allUsers);
    var bloodGroups := CountBy(allUsers, BloodGroup);
    var eyeColors := CountBy(allUsers, EyeColor);
    var departments := CountBy(allUsers, Dept);
    var series := CollectSeries(Rows(allUsers));
    var plotted := PlottedWeights(series);
    var meanAge := Mean(allUsers, AgeReading);
    var meanHeight := Mean(allUsers, HeightReading);
    var meanWeight := Mean(allUsers, WeightReading);
    TallyKeyCount(Labels(allUsers, Dept));
    d := Analytics(AnalyticsView(genders, ageGroups, bloodGroups, eyeColors, departments,
      series, plotted, meanAge, meanHeight, meanWeight, |departments.keys|));
  }
}
