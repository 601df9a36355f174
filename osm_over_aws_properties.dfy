/** Properties of the orchestrator's helpers in module OsmOverAws. */
module OsmOverAwsProperties {
  import opened Wrappers
  import opened Visualizer
  import opened OsmOverAws

  /** `t` occurs in `s` starting at index `k`. */
  predicate OccursAt(s: string, t: string, k: int)
  {
    0 <= k <= |s| - |t| && s[k..k + |t|] == t
  }

  /** `t` occurs in `s` as a contiguous piece. */
  ghost predicate Contains(s: string, t: string)
  {
    exists k :: OccursAt(s, t, k)
  }

  lemma ContainsItself(s: string)
    ensures Contains(s, s)
  {
    assert OccursAt(s, s, 0);
  }

  lemma ContainsInContext(a: string, s: string, b: string, t: string)
    requires Contains(s, t)
    ensures Contains(a + s + b, t)
  {
    var k :| OccursAt(s, t, k);
    var u := a + s + b;
    assert u[|a| + k..|a| + k + |t|] == s[k..k + |t|];
    assert OccursAt(u, t, |a| + k);
  }

  /** Every name appears in the joined list. */
  lemma {:induction false} JoinListsEachName(names: seq<string>, sep: string, i: nat)
    requires i < |names|
    ensures Contains(Join(names, sep), names[i])
    decreases |names|
  {
    if |names| == 1 {
      ContainsItself(names[0]);
    } else if i == 0 {
      ContainsItself(names[0]);
      ContainsInContext("", names[0], sep + Join(names[1..], sep), names[0]);
      assert Join(names, sep) == "" + names[0] + (sep + Join(names[1..], sep));
    } else {
      JoinListsEachName(names[1..], sep, i - 1);
      ContainsInContext(names[0] + sep, Join(names[1..], sep), "", names[i]);
      assert Join(names, sep) == (names[0] + sep) + Join(names[1..], sep) + "";
    }
  }

  /** A message of the shape `head + name + middle + joined names + tail` names `name` and every listed name. */
  lemma MessageListsNames(head: string, name: string, middle: string, names: seq<string>, tail: string)
    ensures Contains(head + name + middle + Join(names, ", ") + tail, name)
    ensures forall i :: 0 <= i < |names| ==> Contains(head + name + middle + Join(names, ", ") + tail, names[i])
  {
    var list := Join(names, ", ");
    ContainsItself(name);
    ContainsInContext(head, name, middle + list + tail, name);
    assert head + name + middle + list + tail == head + name + (middle + list + tail);
    forall i | 0 <= i < |names|
      ensures Contains(head + name + middle + list + tail, names[i])
    {
      JoinListsEachName(names, ", ", i);
      ContainsInContext(head + name + middle, list, tail, names[i]);
    }
  }

  /** The configuration error names the offending class and lists every valid class name. */
  lemma InvalidClassMessageListsAllNames(name: string)
    ensures Contains(InvalidClassMessage(name), name)
    ensures forall i :: 0 <= i < |ClassNames| ==> Contains(InvalidClassMessage(name), ClassNames[i])
  {
    MessageListsNames("The class name '", name,
      "' is not a valid drawable class. The valid class names are: \n", ClassNames, " .");
  }

  /** Validation depends only on which names occur: order and duplicates are irrelevant. */
  lemma ValidationDependsOnlyOnMembership(a: seq<string>, b: seq<string>)
    requires forall c :: c in a <==> c in b
    ensures AllKnown(a) <==> AllKnown(b)
  {
  }

  /** "primary" passes validation, repeated or not, although it has no colour. */
  lemma ValidNamesWithoutColour()
    ensures AllKnown(["primary", "primary"]) && "primary" !in ClassToColor
  {
    assert ClassNames[26] == "primary";
  }

  /** A zero offset returns the original coordinate. */
  lemma MeterOffsetZeroIsIdentity(cos: Cosine, lat: real, lon: real)
    requires cos(Pi * lat / 180.0) != 0.0
    ensures MeterOffsetGps(cos, lat, lon, 0.0, 0.0) == Coordinate(lat, lon)
  {
  }

  /** The new latitude depends on dy alone: lat + dy / R * 180 / pi, whatever dx, lon and the cosine. */
  lemma MeterOffsetLatitudeOnlyFromDy(cos: Cosine, cos': Cosine, lat: real, lon: real, lon': real, dx: real, dx': real, dy: real)
    requires cos(Pi * lat / 180.0) != 0.0 && cos'(Pi * lat / 180.0) != 0.0
    ensures MeterOffsetGps(cos, lat, lon, dx, dy).lat == MeterOffsetGps(cos', lat, lon', dx', dy).lat
    ensures MeterOffsetGps(cos, lat, lon, dx, dy).lat == lat + dy / EarthRadiusMeters * 180.0 / Pi
  {
  }
}
