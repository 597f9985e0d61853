/**
  The fixed reference tables of the wind rose: the compass directions that label the
  rose and the radii of its circular gridlines. Each is a table of two columns that
  is built from literals once and never changed.
*/
module ReferenceData {

  /** `utils_df_winddirs`: the "winddirection" column (degrees) and its "label" column (`labels`). */
  datatype WindDirs = WindDirs(winddirection: seq<int>, labels: seq<string>)

  /** `utils_df_circles`: the "value" column (number of storms) and its "label" column (`labels`). */
  datatype Circles = Circles(value: seq<int>, labels: seq<string>)

  /** Each row gets one label and no label is used twice. */
  predicate Labelled(column: seq<int>, labels: seq<string>)
  {
    && |labels| == |column|
    && forall i, j :: 0 <= i < j < |labels| ==> labels[i] != labels[j]
  }

  predicate StrictlyIncreasing(s: seq<int>)
  {
    forall i, j :: 0 <= i < j < |s| ==> s[i] < s[j]
  }

  function UtilsDfWinddirs(): (t: WindDirs)
    ensures |t.winddirection| == 4 && Labelled(t.winddirection, t.labels)
    ensures forall i :: 0 <= i < 4 ==> t.winddirection[i] == 90 * i
  {
    WindDirs([0, 90, 180, 270], ["NORTH", "E", "SOUTH", "W"])
  }

  function UtilsDfCircles(): (t: Circles)
    ensures |t.value| == 5 && Labelled(t.value, t.labels)
    ensures StrictlyIncreasing(t.value) && t.value[0] > 0
  {
    Circles([1000, 2500, 5000, 7500, 10000], ["1K", "2.5", "5K", "7.5K", "no. storms"])
  }

  /**
    The four directions are distinct angles within one turn, so the rose places them
    at four different angular positions; they are the quarter turns.
  */
  lemma WinddirsAreQuarterTurns()
    ensures var d := UtilsDfWinddirs().winddirection;
      && (forall i :: 0 <= i < |d| ==> 0 <= d[i] < 360 && d[i] % 90 == 0)
      && (forall i, j :: 0 <= i < j < |d| ==> d[i] % 360 != d[j] % 360)
      && (set i | 0 <= i < |d| :: d[i]) == {0, 90, 180, 270}
  {
    var d := UtilsDfWinddirs().winddirection;
    assert d == [0, 90, 180, 270];
    assert 0 == d[0] && 90 == d[1] && 180 == d[2] && 270 == d[3];
  }
}
