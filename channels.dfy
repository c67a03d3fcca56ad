/**
 * The five measurement channels, the per-tick sample, the arithmetic mean of
 * `statistics.mean`, and the two heap objects that hold buffered readings: a
 * list of readings appended in place, and a dictionary from the five channel
 * names to such lists (src/demo_mi2.py, src/Configuration.py).
 */
module Channels {
  import opened Outcomes

  datatype Channel = Radiation | Temperature | Globe | Humidity | Wind

  /** Key order of the buffer dictionary, which is also the column order of the CSV header. */
  const ORDER: seq<Channel> := [Radiation, Temperature, Globe, Humidity, Wind]
  const CHANNEL_COUNT := 5

  /** One reading per channel, as taken by one sampling tick. */
  datatype Sample = Sample(radiation: real, temperature: real, globe: real, humidity: real, wind: real)
  {
    function At(c: Channel): real
    {
      match c
      case Radiation => radiation
      case Temperature => temperature
      case Globe => globe
      case Humidity => humidity
      case Wind => wind
    }
  }

  /** The sample whose channels, in ORDER, carry the given values. */
  function SampleOf(vs: seq<real>): (s: Sample)
    requires |vs| == CHANNEL_COUNT
    ensures forall i :: 0 <= i < CHANNEL_COUNT ==> s.At(ORDER[i]) == vs[i]
  {
    Sample(vs[0], vs[1], vs[2], vs[3], vs[4])
  }

  function Sum(s: seq<real>): real
  {
    if s == [] then 0.0 else s[0] + Sum(s[1..])
  }

  function Average(s: seq<real>): real
    requires s != []
  {
    Sum(s) / (|s| as real)
  }

  /** `statistics.mean`: it raises on an empty list. */
  function Mean(s: seq<real>): (m: Option<real>)
    ensures m.None? <==> s == []
    ensures m.Some? ==> m.value * (|s| as real) == Sum(s)
  {
    if s == [] then None else Some(Average(s))
  }

  /** Every channel of a buffer snapshot holds at least one reading. */
  predicate AllNonEmpty(snap: seq<seq<real>>)
  {
    forall i :: 0 <= i < |snap| ==> snap[i] != []
  }

  /** The per-channel means of a snapshot whose channels are all non-empty. */
  function Averages(snap: seq<seq<real>>): (r: seq<real>)
    requires AllNonEmpty(snap)
    ensures |r| == |snap|
  {
    seq(|snap|, i requires 0 <= i < |snap| => Average(snap[i]))
  }

  /** A snapshot of a freshly initialised buffer. */
  const EMPTY: seq<seq<real>> := [[], [], [], [], []]

  /** A snapshot after one reading per channel has been appended in place. */
  function Appended(snap: seq<seq<real>>, s: Sample): (r: seq<seq<real>>)
    requires |snap| == CHANNEL_COUNT
    ensures |r| == CHANNEL_COUNT
  {
    seq(CHANNEL_COUNT, i requires 0 <= i < CHANNEL_COUNT => snap[i] + [s.At(ORDER[i])])
  }

  /** A sum of readings that all lie in [lo, hi] lies between |s| * lo and |s| * hi. */
  lemma {:induction false} SumWithin(s: seq<real>, lo: real, hi: real)
    requires forall i :: 0 <= i < |s| ==> lo <= s[i] <= hi
    ensures (|s| as real) * lo <= Sum(s) <= (|s| as real) * hi
  {
    if s != [] {
      SumWithin(s[1..], lo, hi);
    }
  }

  /** A mean of readings that all lie in [lo, hi] lies in [lo, hi]. */
  lemma AverageWithin(s: seq<real>, lo: real, hi: real)
    requires s != []
    requires forall i :: 0 <= i < |s| ==> lo <= s[i] <= hi
    ensures lo <= Average(s) <= hi
  {
    SumWithin(s, lo, hi);
    QuotientWithin(Sum(s), |s| as real, lo, hi);
  }

  lemma QuotientWithin(total: real, n: real, lo: real, hi: real)
    requires n > 0.0 && n * lo <= total <= n * hi
    ensures lo <= total / n <= hi
  {
    assert total / n - lo == (total - n * lo) / n;
    assert hi - total / n == (n * hi - total) / n;
  }

  /** Appending a reading adds it to the running sum. */
  lemma {:induction false} SumAppend(s: seq<real>, x: real)
    ensures Sum(s + [x]) == Sum(s) + x
  {
    if s != [] {
      assert (s + [x])[1..] == s[1..] + [x];
      SumAppend(s[1..], x);
    }
  }

  /** A Python list of readings, appended in place. */
  class SampleList {
    var items: seq<real>

    constructor ()
      ensures items == []
    {
      items := [];
    }

    method Append(x: real)
      modifies this
      ensures items == old(items) + [x]
    {
      items := items + [x];
    }
  }

  /**
   * A dictionary from the five channel names to lists of readings. Its keys
   * never change; its lists are appended in place.
   */
  class ChannelLists {
    const radiation: SampleList
    const temperature: SampleList
    const globe: SampleList
    const humidity: SampleList
    const wind: SampleList

    /** A new dictionary with five new, empty lists. */
    constructor ()
      ensures Valid() && fresh(Lists())
      ensures Snapshot() == EMPTY
    {
      radiation := new SampleList();
      temperature := new SampleList();
      globe := new SampleList();
      humidity := new SampleList();
      wind := new SampleList();
    }

    function List(c: Channel): SampleList
    {
      match c
      case Radiation => radiation
      case Temperature => temperature
      case Globe => globe
      case Humidity => humidity
      case Wind => wind
    }

    ghost function Lists(): set<object>
    {
      {radiation, temperature, globe, humidity, wind}
    }

    /** The five lists are five different objects. */
    ghost predicate Valid()
    {
      && radiation != temperature && radiation != globe && radiation != humidity && radiation != wind
      && temperature != globe && temperature != humidity && temperature != wind
      && globe != humidity && globe != wind
      && humidity != wind
    }

    /** The lists' contents, in ORDER. */
    ghost function Snapshot(): (snap: seq<seq<real>>)
      reads Lists()
      ensures |snap| == CHANNEL_COUNT
      ensures forall i :: 0 <= i < CHANNEL_COUNT ==> snap[i] == List(ORDER[i]).items
    {
      [radiation.items, temperature.items, globe.items, humidity.items, wind.items]
    }

    /** Appends one reading to each list, in key order. */
    method AppendSample(s: Sample)
      requires Valid()
      modifies Lists()
      ensures Snapshot() == Appended(old(Snapshot()), s)
    {
      radiation.Append(s.radiation);
      temperature.Append(s.temperature);
      globe.Append(s.globe);
      humidity.Append(s.humidity);
      wind.Append(s.wind);
    }
  }
}
