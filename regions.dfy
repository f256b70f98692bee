/** The grouping step shared by both `parse_traffic_congestion` variants
    (server/app/utils/easyway.py, server/app/helpers/easyway.py): every
    record's value is appended to the list of every region whose polygon
    contains the record's point, in a dictionary whose keys appear in the
    order regions first receive a value. Also the arithmetic the two
    variants apply to a region's list.

    Polygon containment (shapely) is not part of this model: it is the
    parameter `contains`, applied to a region's bounds and to the point
    built as (latitude, longitude). */
module Regions {
  import Seqs

  /** A region's bounds as listed in regions.json. */
  type Bounds = seq<(real, real)>

  /** `Polygon(bounds).contains(Point((x, y)))`. */
  type Containment = (Bounds, real, real) -> bool

  datatype Region = Region(name: string, bounds: Bounds)

  /** A traffic record seen by the grouping: its point and the value it
      contributes (a distance or a speed). */
  datatype Sample = Sample(latitude: real, longitude: real, value: real)

  /** A `defaultdict(list)` of region name to values; `order` is its key order. */
  datatype Grouping = Grouping(order: seq<string>, values: map<string, seq<real>>)

  /** The regions' names; the regions come from a dictionary, so these are distinct. */
  ghost predicate DistinctNames(regions: seq<Region>) {
    forall i, j :: 0 <= i < j < |regions| ==> regions[i].name != regions[j].name
  }

  /** The list of `name`, empty when the key was never created. */
  function Lookup(g: Grouping, name: string): seq<real> {
    if name in g.values then g.values[name] else []
  }

  /** A grouping as the loop builds it: keys in `order` once each, and a
      key exists only once a value was appended to it. */
  ghost predicate WellFormed(g: Grouping) {
    && Seqs.Distinct(g.order)
    && (forall n :: n in g.values <==> n in g.order)
    && (forall n :: n in g.values ==> g.values[n] != [])
  }

  /** `regions_values[name].append(v)`. */
  function Append(g: Grouping, name: string, v: real): Grouping {
    if name in g.values then g.(values := g.values[name := g.values[name] + [v]])
    else Grouping(g.order + [name], g.values[name := [v]])
  }

  /** The inner loop for one sample: the regions, in order, that contain it. */
  function AddSample(g: Grouping, s: Sample, regions: seq<Region>, contains: Containment): Grouping {
    if regions == [] then g
    else
      var g' := AddSample(g, s, regions[..|regions| - 1], contains);
      var r := regions[|regions| - 1];
      if contains(r.bounds, s.latitude, s.longitude) then Append(g', r.name, s.value) else g'
  }

  /** The grouping the two nested loops build. */
  function Group(samples: seq<Sample>, regions: seq<Region>, contains: Containment): Grouping {
    if samples == [] then Grouping([], map[])
    else AddSample(Group(samples[..|samples| - 1], regions, contains), samples[|samples| - 1], regions, contains)
  }

  /** The values of the samples a region's bounds contain, in sample order. */
  function RegionValues(samples: seq<Sample>, bounds: Bounds, contains: Containment): (vs: seq<real>)
    ensures |vs| <= |samples|
  {
    if samples == [] then []
    else
      var s := samples[|samples| - 1];
      RegionValues(samples[..|samples| - 1], bounds, contains)
        + (if contains(bounds, s.latitude, s.longitude) then [s.value] else [])
  }

  /** The nested loops of `parse_traffic_congestion`. */
  method GroupByRegion(samples: seq<Sample>, regions: seq<Region>, contains: Containment) returns (g: Grouping)
    ensures g == Group(samples, regions, contains)
  {
    g := Grouping([], map[]);
    for i := 0 to |samples|
      invariant g == Group(samples[..i], regions, contains)
    {
      var s := samples[i];
      assert samples[..i + 1][..i] == samples[..i];
      ghost var before := g;
      for k := 0 to |regions|
        invariant g == AddSample(before, s, regions[..k], contains)
      {
        assert regions[..k + 1][..k] == regions[..k];
        var r := regions[k];
        if contains(r.bounds, s.latitude, s.longitude) {
          if r.name in g.values {
            g := g.(values := g.values[r.name := g.values[r.name] + [s.value]]);
          } else {
            g := Grouping(g.order + [r.name], g.values[r.name := [s.value]]);
          }
        }
      }
      assert regions[..|regions|] == regions;
    }
    assert samples[..|samples|] == samples;
  }

  lemma {:induction false} AppendSpec(g: Grouping, name: string, v: real)
    requires WellFormed(g)
    ensures WellFormed(Append(g, name, v))
    ensures Lookup(Append(g, name, v), name) == Lookup(g, name) + [v]
    ensures forall n :: n != name ==> Lookup(Append(g, name, v), n) == Lookup(g, n)
  {
    if name !in g.values {
      var order := g.order + [name];
      assert forall i :: 0 <= i < |g.order| ==> order[i] == g.order[i];
    }
  }

  /** One sample lands in exactly the regions that contain it. */
  lemma {:induction false} AddSampleSpec(g: Grouping, s: Sample, regions: seq<Region>, contains: Containment)
    requires WellFormed(g)
    requires DistinctNames(regions)
    ensures WellFormed(AddSample(g, s, regions, contains))
    ensures forall k :: 0 <= k < |regions| ==>
      Lookup(AddSample(g, s, regions, contains), regions[k].name)
        == Lookup(g, regions[k].name) + (if contains(regions[k].bounds, s.latitude, s.longitude) then [s.value] else [])
    ensures forall n :: (forall k :: 0 <= k < |regions| ==> regions[k].name != n) ==>
      Lookup(AddSample(g, s, regions, contains), n) == Lookup(g, n)
  {
    if regions != [] {
      var init := regions[..|regions| - 1];
      var r := regions[|regions| - 1];
      AddSampleSpec(g, s, init, contains);
      var g' := AddSample(g, s, init, contains);
      if contains(r.bounds, s.latitude, s.longitude) {
        AppendSpec(g', r.name, s.value);
      }
      forall k | 0 <= k < |regions| - 1
        ensures Lookup(AddSample(g, s, regions, contains), regions[k].name)
          == Lookup(g, regions[k].name) + (if contains(regions[k].bounds, s.latitude, s.longitude) then [s.value] else [])
      {
        assert init[k] == regions[k];
      }
      assert Lookup(g', r.name) == Lookup(g, r.name) by {
        assert forall k :: 0 <= k < |init| ==> init[k].name != r.name;
      }
      if !contains(r.bounds, s.latitude, s.longitude) {
        assert Lookup(g, r.name) + [] == Lookup(g, r.name);
      }
    }
  }

  /** Each region's list is the values of the samples its polygon
      contains, in order (so a sample counts in zero, one or several
      regions); only regions with at least one such sample are keys, each
      key appears once in the order, and no other key appears. */
  lemma {:induction false} GroupSpec(samples: seq<Sample>, regions: seq<Region>, contains: Containment)
    requires DistinctNames(regions)
    ensures WellFormed(Group(samples, regions, contains))
    ensures forall k :: 0 <= k < |regions| ==>
      Lookup(Group(samples, regions, contains), regions[k].name) == RegionValues(samples, regions[k].bounds, contains)
    ensures forall n :: n in Group(samples, regions, contains).values ==>
      exists k :: 0 <= k < |regions| && regions[k].name == n
  {
    if samples == [] {
    } else {
      var init := samples[..|samples| - 1];
      GroupSpec(init, regions, contains);
      var g := Group(init, regions, contains);
      AddSampleSpec(g, samples[|samples| - 1], regions, contains);
      var g' := Group(samples, regions, contains);
      forall n | n in g'.values ensures exists k :: 0 <= k < |regions| && regions[k].name == n {
        if forall k :: 0 <= k < |regions| ==> regions[k].name != n {
          assert Lookup(g', n) == Lookup(g, n);
        }
      }
    }
  }

  /** The key set of the grouping, stated on names: a region is a key exactly
      when some sample lies in it. */
  lemma {:induction false} GroupKeys(samples: seq<Sample>, regions: seq<Region>, contains: Containment)
    requires DistinctNames(regions)
    ensures forall k :: 0 <= k < |regions| ==>
      (regions[k].name in Group(samples, regions, contains).values <==>
       exists i :: 0 <= i < |samples| && contains(regions[k].bounds, samples[i].latitude, samples[i].longitude))
  {
    GroupSpec(samples, regions, contains);
    forall k | 0 <= k < |regions|
      ensures RegionValues(samples, regions[k].bounds, contains) != [] <==>
        exists i :: 0 <= i < |samples| && contains(regions[k].bounds, samples[i].latitude, samples[i].longitude)
    {
      RegionValuesEmpty(samples, regions[k].bounds, contains);
    }
  }

  lemma {:induction false} RegionValuesEmpty(samples: seq<Sample>, bounds: Bounds, contains: Containment)
    ensures RegionValues(samples, bounds, contains) != [] <==>
      exists i :: 0 <= i < |samples| && contains(bounds, samples[i].latitude, samples[i].longitude)
  {
    if samples != [] {
      var init := samples[..|samples| - 1];
      RegionValuesEmpty(init, bounds, contains);
      if exists i :: 0 <= i < |init| && contains(bounds, init[i].latitude, init[i].longitude) {
        var i :| 0 <= i < |init| && contains(bounds, init[i].latitude, init[i].longitude);
        assert samples[i] == init[i];
      }
    }
  }

  /** Python's `sum` over a list of numbers. */
  function Sum(xs: seq<real>): real {
    if xs == [] then 0.0 else Sum(xs[..|xs| - 1]) + xs[|xs| - 1]
  }

  predicate IsNonZero(x: real) {
    x != 0.0
  }

  /** `list(filter(lambda x: x != 0, xs))`. */
  function NonZero(xs: seq<real>): (r: seq<real>)
    ensures forall x :: x in r <==> x in xs && x != 0.0
  {
    Seqs.Filter(xs, IsNonZero)
  }

  /** Zeros anywhere in the list leave its non-zero part unchanged. */
  lemma {:induction false} NonZeroIgnoresZeros(xs: seq<real>, ys: seq<real>)
    ensures NonZero(xs + [0.0] + ys) == NonZero(xs + ys)
  {
    Seqs.FilterAppend(xs + [0.0], ys, IsNonZero);
    Seqs.FilterAppend(xs, [0.0], IsNonZero);
    Seqs.FilterAppend(xs, ys, IsNonZero);
    assert Seqs.Filter([0.0], IsNonZero) == [];
    assert Seqs.Filter(xs, IsNonZero) + [] == Seqs.Filter(xs, IsNonZero);
  }
}
