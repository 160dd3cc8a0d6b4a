/** Extraction of LGA records from an already-parsed GeoJSON FeatureCollection
    (load_lga_gdf). */
module Areas {
  import opened Common

  /** A feature's `properties` object; values are the strings the file holds. */
  type Props = map<string, string>

  datatype Point = Point(x: real, y: real)

  /** A feature's raw `geometry` object, kept as it was read. */
  datatype Geometry =
    | Polygon(rings: seq<seq<Point>>)
    | MultiPolygon(polygons: seq<seq<seq<Point>>>)

  /** One element of `features`; a missing or null member is `None`. */
  datatype Feature = Feature(properties: Option<Props>, geometry: Option<Geometry>)

  /** One row of the LGA table. */
  datatype AreaRecord = AreaRecord(lga: string, state: string, lat: real, lon: real, geometry: Geometry)

  /** Name properties, in the order the fallback chain tries them. */
  const NameKeys: seq<string> := ["ADM2_NAME", "NAME_2", "NAME", "LGA_NAME"]
  const StateKey: string := "NAME_1"
  const Unknown: string := "Unknown"

  /** `props.get(key)` is truthy: the key is present with a non-empty value. */
  predicate Named(props: Props, key: string)
    ensures Named(props, key) <==> key in props && |props[key]| > 0
  {
    key in props && props[key] != ""
  }

  /** The `or` chain over `keys`: the first truthy value, else "Unknown". */
  function FirstName(props: Props, keys: seq<string>): (name: string)
    ensures name != ""
    ensures (forall i :: 0 <= i < |keys| ==> !Named(props, keys[i])) ==> name == Unknown
    ensures (exists i :: 0 <= i < |keys| && Named(props, keys[i])) ==>
              exists i :: 0 <= i < |keys| && Named(props, keys[i]) && name == props[keys[i]] &&
                          forall j :: 0 <= j < i ==> !Named(props, keys[j])
    decreases |keys|
  {
    if |keys| == 0 then Unknown
    else if Named(props, keys[0]) then props[keys[0]]
    else
      var rest := FirstName(props, keys[1..]);
      assert forall i :: 1 <= i < |keys| ==> keys[i] == keys[1..][i - 1];
      rest
  }

  /** The LGA name of a feature. */
  function ResolveName(props: Props): (name: string)
    ensures name != ""
  {
    FirstName(props, NameKeys)
  }

  /** The State of a feature: `NAME_1` whenever present, even when empty. */
  function ResolveState(props: Props): (state: string)
    ensures StateKey in props ==> state == props[StateKey]
    ensures StateKey !in props ==> state == Unknown
  {
    if StateKey in props then props[StateKey] else Unknown
  }

  /** The row one feature yields; `None` when reading it raises (no properties,
      no geometry, or a geometry whose centroid cannot be taken). */
  function AreaOf(f: Feature, centroid: Geometry -> Option<Point>): (r: Option<AreaRecord>)
    ensures r.Some? <==> f.properties.Some? && f.geometry.Some? && centroid(f.geometry.value).Some?
    ensures r.Some? ==> r.value.lga != "" && r.value.geometry == f.geometry.value
  {
    if f.properties.None? || f.geometry.None? then None
    else match centroid(f.geometry.value)
      case None => None
      case Some(c) =>
        Some(AreaRecord(ResolveName(f.properties.value), ResolveState(f.properties.value), c.y, c.x, f.geometry.value))
  }

  /** Every feature yields a row. */
  ghost predicate Loadable(features: seq<Feature>, centroid: Geometry -> Option<Point>) {
    forall i :: 0 <= i < |features| ==> AreaOf(features[i], centroid).Some?
  }

  /** The row loop of load_lga_gdf. `features` is `None` when the file cannot
      be read or has no `features` member; the result is `None` whenever any
      step raises, and otherwise has one row per feature, in feature order. */
  method LoadLgaRows(features: Option<seq<Feature>>, centroid: Geometry -> Option<Point>)
    returns (table: Option<seq<AreaRecord>>)
    ensures table.Some? <==> features.Some? && Loadable(features.value, centroid)
    ensures table.Some? ==> |table.value| == |features.value|
    ensures table.Some? ==> forall i :: 0 <= i < |features.value| ==>
              AreaOf(features.value[i], centroid) == Some(table.value[i])
  {
    if features.None? {
      return None;
    }
    var fs := features.value;
    var rows: seq<AreaRecord> := [];
    var i := 0;
    while i < |fs|
      invariant 0 <= i <= |fs|
      invariant |rows| == i
      invariant forall k :: 0 <= k < i ==> AreaOf(fs[k], centroid) == Some(rows[k])
    {
      var f := fs[i];
      if f.properties.None? || f.geometry.None? {
        return None;
      }
      var c := centroid(f.geometry.value);
      if c.None? {
        return None;
      }
      var props := f.properties.value;
      var lga := ResolveName(props);
      var state := ResolveState(props);
      rows := rows + [AreaRecord(lga, state, c.value.y, c.value.x, f.geometry.value)];
      i := i + 1;
    }
    return Some(rows);
  }

  /** What each loaded row holds: a non-empty name from the fallback chain,
      the State property, the centroid's y as latitude and x as longitude,
      and the feature's geometry unchanged. */
  lemma LoadedRowContents(f: Feature, centroid: Geometry -> Option<Point>, row: AreaRecord)
    requires AreaOf(f, centroid) == Some(row)
    ensures f.properties.Some? && f.geometry.Some? && centroid(f.geometry.value).Some?
    ensures row.lga != "" && row.lga == ResolveName(f.properties.value)
    ensures row.state == ResolveState(f.properties.value)
    ensures row.lat == centroid(f.geometry.value).value.y
    ensures row.lon == centroid(f.geometry.value).value.x
    ensures row.geometry == f.geometry.value
  {
  }

  /** A feature that names itself only through NAME_2 gets that name. */
  lemma NameFallsThroughEmptyKey()
    ensures ResolveName(map["ADM2_NAME" := "", "NAME_2" := "Ikeja"]) == "Ikeja"
  {
  }

  /** Unlike the name, the State has no fallback for an empty value. */
  lemma EmptyStateIsKept()
    ensures ResolveState(map[StateKey := ""]) == ""
    ensures ResolveState(map[]) == Unknown
  {
  }

  /** The single-feature scenario: a square centred at (8.0, 9.0). */
  lemma ExampleFeature(centroid: Geometry -> Option<Point>, g: Geometry)
    requires centroid(g) == Some(Point(8.0, 9.0))
    ensures AreaOf(Feature(Some(map["NAME_2" := "Example LGA", StateKey := "Example State"]), Some(g)), centroid)
            == Some(AreaRecord("Example LGA", "Example State", 9.0, 8.0, g))
  {
  }
}
