/** The two-user data set of the chart section's component test, and what the
    model derives from it. */
module Fixtures {
  import opened Wrappers
  import opened Users
  import opened Histograms
  import opened ChartSection
  import opened DashboardSlice

  function John(): User {
    User(1, "John Doe", "johndoe", "john@example.com", "123-456-7890", "https://johndoe.com",
      None, Some(25.0), Some("male"), None, Some("A+"), Some(180.0), Some(75.0), Some("brown"),
      None, None, Some(Company(None, Some("Engineering"), None)))
  }

  function Jane(): User {
    User(2, "Jane Smith", "janesmith", "jane@example.com", "098-765-4321", "https://janesmith.com",
      None, Some(30.0), Some("female"), None, Some("B+"), Some(165.0), Some(60.0), Some("blue"),
      None, None, Some(Company(None, Some("Marketing"), None)))
  }

  /** Averages 28, 173 and 68 (27.5, 172.5 and 67.5 rounded up), two
      departments and two eye colours. */
  lemma FixtureSummary()
    ensures Mean([John(), Jane()], AgeReading) == 28
    ensures Mean([John(), Jane()], HeightReading) == 173
    ensures Mean([John(), Jane()], WeightReading) == 68
    ensures DistinctCount([John(), Jane()], Dept) == 2
    ensures DistinctCount([John(), Jane()], EyeColor) == 2
  {
    FixtureTotals();
    FixtureDepartments();
    FixtureEyeColors();
  }

  lemma FixtureTotals()
    ensures Total([John(), Jane()], AgeReading) == 55.0
    ensures Total([John(), Jane()], HeightReading) == 345.0
    ensures Total([John(), Jane()], WeightReading) == 135.0
  {
    assert [John(), Jane()][..1] == [John()];
  }

  lemma FixtureDepartments()
    ensures DistinctCount([John(), Jane()], Dept) == 2
  {
    var labels := Labels([John(), Jane()], Dept);
    assert labels == ["Engineering", "Marketing"];
    assert (set k | k in labels) == {"Engineering", "Marketing"};
  }

  lemma FixtureEyeColors()
    ensures DistinctCount([John(), Jane()], EyeColor) == 2
  {
    var labels := Labels([John(), Jane()], EyeColor);
    assert labels == ["brown", "blue"];
    assert (set k | k in labels) == {"brown", "blue"};
  }

  /** The gender chart gets the labels male, female with one user each. */
  lemma FixtureGenders()
    ensures Tally(Labels([John(), Jane()], Gender)).keys == ["male", "female"]
    ensures Values(Tally(Labels([John(), Jane()], Gender))) == [1, 1]
  {
    var genders := Labels([John(), Jane()], Gender);
    assert genders == ["male", "female"];
    assert genders[..1] == ["male"];
  }

  /** Both users fall in the 25-34 age group. */
  lemma FixtureAgeGroups()
    ensures Tally(AgeLabels([John(), Jane()])).keys == ["25-34"]
    ensures Values(Tally(AgeLabels([John(), Jane()]))) == [2]
  {
    FixtureAgeLabels();
    TallyTwice("25-34");
  }

  lemma FixtureAgeLabels()
    ensures AgeLabels([John(), Jane()]) == ["25-34", "25-34"]
  {
    var users := [John(), Jane()];
    assert users[..1] == [John()];
    assert AgeLabels([John()]) == ["25-34"] by {
      assert [John()][..0] == [];
    }
  }

  lemma TallyTwice(k: string)
    ensures Tally([k, k]) == Histogram([k], map[k := 2])
  {
    TallyAppend([], k);
    TallyAppend([k], k);
    assert [k] + [k] == [k, k];
  }

  /** The series is ordered by age: ages 25 and 30, heights 180 and 165,
      weights 75 and 60. */
  lemma FixtureSeries()
    ensures SeriesOf([John(), Jane()]) == Series([25.0, 30.0], [180.0, 165.0], [75.0, 60.0])
  {
    FixtureRows();
    FixtureSeriesFrom();
  }

  /** The plotted weights are doubled: 150 and 120. */
  lemma FixturePlottedWeights()
    ensures PlottedWeights(SeriesOf([John(), Jane()])) == [150.0, 120.0]
  {
    FixtureSeries();
    DoubledFixtureWeights();
  }

  lemma DoubledFixtureWeights()
    ensures PlottedWeights(Series([25.0, 30.0], [180.0, 165.0], [75.0, 60.0])) == [150.0, 120.0]
  {
  }

  lemma FixtureSeriesFrom()
    ensures SeriesFrom([John(), Jane()]) == Series([25.0, 30.0], [180.0, 165.0], [75.0, 60.0])
  {
    var s := SeriesFrom([John(), Jane()]);
    assert s.ages == [25.0, 30.0] by { assert AgeOrder.AgeOf(John()) == 25.0; }
    assert s.heights == [180.0, 165.0];
    assert s.weights == [75.0, 60.0];
  }

  lemma FixtureRows()
    ensures Rows([John(), Jane()]) == [John(), Jane()]
  {
    FixtureKeepsBoth();
    FixtureSorted();
  }

  lemma FixtureKeepsBoth()
    ensures KeepPlottable([John(), Jane()]) == [John(), Jane()]
  {
    KeepAllPlottable([John(), Jane()]);
  }

  lemma FixtureSorted()
    ensures AgeOrder.SortByAge([John(), Jane()]) == [John(), Jane()]
  {
    AgeOrder.SortSortedUnchanged([John(), Jane()]);
  }

  /** One user at six per page is one page. */
  lemma FixturePageCount()
    ensures TotalPages(1, 6) == 1
  {
  }
}
