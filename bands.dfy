/**
 * The hardware band table consulted by trxGetBandFromFrequency and
 * trxGetNextOrPrevBandFromFrequency. The table itself (and trx.c) is not
 * part of this model: it is any sequence of [minFreq, maxFreq] ranges, and
 * the lemmas that need it require the ranges to be non-empty, ascending and
 * disjoint, as a band plan is.
 */
module Bands {
  import opened Wrappers

  datatype Band = Band(minFreq: int, maxFreq: int)

  predicate Contains(b: Band, f: int)
  {
    b.minFreq <= f <= b.maxFreq
  }

  ghost predicate InAnyBand(t: seq<Band>, f: int)
  {
    exists i :: 0 <= i < |t| && Contains(t[i], f)
  }

  /** Non-empty ranges in strictly ascending, non-overlapping order. */
  ghost predicate SortedDisjoint(t: seq<Band>)
  {
    (forall i :: 0 <= i < |t| ==> t[i].minFreq <= t[i].maxFreq) &&
    (forall i, j :: 0 <= i < j < |t| ==> t[i].maxFreq < t[j].minFreq)
  }

  /** The first band at index i or later that contains f. */
  function BandFrom(t: seq<Band>, f: int, i: nat): (r: Option<nat>)
    requires i <= |t|
    ensures r.Some? ==> i <= r.value < |t| && Contains(t[r.value], f)
    ensures r.Some? ==> forall j :: i <= j < r.value ==> !Contains(t[j], f)
    ensures r.None? ==> forall j :: i <= j < |t| ==> !Contains(t[j], f)
    decreases |t| - i
  {
    if i == |t| then None
    else if Contains(t[i], f) then Some(i)
    else BandFrom(t, f, i + 1)
  }

  /** trxGetBandFromFrequency: the band holding f, or None for FREQUENCY_OUT_OF_BAND. */
  function GetBandFromFrequency(t: seq<Band>, f: int): (r: Option<nat>)
    ensures r.Some? <==> InAnyBand(t, f)
    ensures r.Some? ==> r.value < |t| && Contains(t[r.value], f)
  {
    BandFrom(t, f, 0)
  }

  predicate InBand(t: seq<Band>, f: int)
  {
    GetBandFromFrequency(t, f).Some?
  }

  /** The first band at index i or later that starts above f. */
  function NextBandFrom(t: seq<Band>, f: int, i: nat): (r: Option<nat>)
    requires i <= |t|
    ensures r.Some? ==> i <= r.value < |t| && t[r.value].minFreq > f
    ensures r.Some? ==> forall j :: i <= j < r.value ==> t[j].minFreq <= f
    ensures r.None? ==> forall j :: i <= j < |t| ==> t[j].minFreq <= f
    decreases |t| - i
  {
    if i == |t| then None
    else if t[i].minFreq > f then Some(i)
    else NextBandFrom(t, f, i + 1)
  }

  /** The last band below index n that ends below f. */
  function PrevBandBelow(t: seq<Band>, f: int, n: nat): (r: Option<nat>)
    requires n <= |t|
    ensures r.Some? ==> r.value < n && t[r.value].maxFreq < f
    ensures r.Some? ==> forall j :: r.value < j < n ==> t[j].maxFreq >= f
    ensures r.None? ==> forall j :: 0 <= j < n ==> t[j].maxFreq >= f
    decreases n
  {
    if n == 0 then None
    else if t[n - 1].maxFreq < f then Some(n - 1)
    else PrevBandBelow(t, f, n - 1)
  }

  /**
   * trxGetNextOrPrevBandFromFrequency: the nearest band above f (up) or below
   * f (down), or None for the C result -1.
   */
  function GetNextOrPrevBand(t: seq<Band>, f: int, up: bool): (r: Option<nat>)
    ensures r.Some? ==> r.value < |t|
    ensures r.Some? && up ==> t[r.value].minFreq > f
    ensures r.Some? && !up ==> t[r.value].maxFreq < f
  {
    if up then NextBandFrom(t, f, 0) else PrevBandBelow(t, f, |t|)
  }

  /**
   * For a frequency in a gap of a sorted table, the next band up is the
   * nearest one: no frequency from f up to that band's start is in any band.
   */
  lemma NextBandIsNearest(t: seq<Band>, f: int, g: int)
    requires SortedDisjoint(t) && !InAnyBand(t, f)
    requires GetNextOrPrevBand(t, f, true).Some?
    requires f <= g < t[GetNextOrPrevBand(t, f, true).value].minFreq
    ensures !InAnyBand(t, g)
  {
    var b := GetNextOrPrevBand(t, f, true).value;
    forall i | 0 <= i < |t|
      ensures !Contains(t[i], g)
    {
      if i < b {
        assert t[i].minFreq <= f;
        assert !Contains(t[i], f);
      } else if i > b {
        assert t[b].maxFreq < t[i].minFreq;
      }
    }
  }

  /** With no band above a gap frequency f, nothing from f upwards is in a band. */
  lemma NoNextBandMeansNothingAbove(t: seq<Band>, f: int, g: int)
    requires !InAnyBand(t, f)
    requires GetNextOrPrevBand(t, f, true).None?
    requires g >= f
    ensures !InAnyBand(t, g)
  {
    forall i | 0 <= i < |t|
      ensures !Contains(t[i], g)
    {
      assert t[i].minFreq <= f;
      assert !Contains(t[i], f);
    }
  }

  /** The previous band of a gap frequency is the nearest below it. */
  lemma PrevBandIsNearest(t: seq<Band>, f: int, g: int)
    requires SortedDisjoint(t) && !InAnyBand(t, f)
    requires GetNextOrPrevBand(t, f, false).Some?
    requires t[GetNextOrPrevBand(t, f, false).value].maxFreq < g <= f
    ensures !InAnyBand(t, g)
  {
    var b := GetNextOrPrevBand(t, f, false).value;
    forall i | 0 <= i < |t|
      ensures !Contains(t[i], g)
    {
      if i > b {
        assert t[i].maxFreq >= f;
        assert !Contains(t[i], f);
      } else if i < b {
        assert t[i].maxFreq < t[b].minFreq;
      }
    }
  }

  /** With no band below a gap frequency f, nothing from f downwards is in a band. */
  lemma NoPrevBandMeansNothingBelow(t: seq<Band>, f: int, g: int)
    requires !InAnyBand(t, f)
    requires GetNextOrPrevBand(t, f, false).None?
    requires g <= f
    ensures !InAnyBand(t, g)
  {
    forall i | 0 <= i < |t|
      ensures !Contains(t[i], g)
    {
      assert t[i].maxFreq >= f;
      assert !Contains(t[i], f);
    }
  }

  /** In a sorted table the edges of every band are in band. */
  lemma BandEdgesInBand(t: seq<Band>, b: nat)
    requires SortedDisjoint(t) && b < |t|
    ensures InBand(t, t[b].minFreq) && InBand(t, t[b].maxFreq)
  {
    assert Contains(t[b], t[b].minFreq);
    assert Contains(t[b], t[b].maxFreq);
  }
}
