/** The scene's light list (LightManager.cpp/.h): one directional light and at most
    MAX_POINT_LIGHTS point lights. The lights themselves are opaque values: D for the
    directional light, P for a point light. */
module Lights {
  import opened Grid

  const MAX_POINT_LIGHTS: nat := 4

  /** The list after AddPointLight: the light goes at the end unless the list is full. */
  function Added<P>(lights: seq<P>, light: P): (r: seq<P>)
    ensures |lights| < MAX_POINT_LIGHTS ==> |r| == |lights| + 1 && r[|lights|] == light
    ensures |lights| >= MAX_POINT_LIGHTS ==> r == lights
    ensures |r| <= MAX_POINT_LIGHTS || r == lights
    ensures forall k :: 0 <= k < |lights| ==> r[k] == lights[k]
  {
    if |lights| < MAX_POINT_LIGHTS then lights + [light] else lights
  }

  /** The list after RemovePointLight(index): the indexed light is gone, the others keep their
      order; an index past the end changes nothing. */
  function Removed<P>(lights: seq<P>, index: nat): (r: seq<P>)
    ensures index >= |lights| ==> r == lights
    ensures index < |lights| ==> |r| == |lights| - 1
    ensures index < |lights| ==> forall k :: 0 <= k < index ==> r[k] == lights[k]
    ensures index < |lights| ==> forall k :: index <= k < |r| ==> r[k] == lights[k + 1]
  {
    if index < |lights| then lights[..index] + lights[index + 1..] else lights
  }

  /** Adding to a list that is not full and then removing the last light gives the list back. */
  lemma AddThenRemoveLast<P>(lights: seq<P>, light: P)
    requires |lights| < MAX_POINT_LIGHTS
    ensures Removed(Added(lights, light), |lights|) == lights
  {
    assert Added(lights, light)[..|lights|] == lights;
  }

  /** Adding each light of adds in turn. */
  function AddAll<P>(lights: seq<P>, adds: seq<P>): seq<P>
    decreases |adds|
  {
    if |adds| == 0 then lights else AddAll(Added(lights, adds[0]), adds[1..])
  }

  /** A run of adds never takes the list past MAX_POINT_LIGHTS; a remove only shortens it (see Removed). */
  lemma {:induction false} BoundKept<P>(lights: seq<P>, adds: seq<P>)
    requires |lights| <= MAX_POINT_LIGHTS
    ensures |AddAll(lights, adds)| <= MAX_POINT_LIGHTS
    ensures |AddAll(lights, adds)| == Min(MAX_POINT_LIGHTS, |lights| + |adds|)
    decreases |adds|
  {
    if |adds| > 0 {
      BoundKept(Added(lights, adds[0]), adds[1..]);
    }
  }

  /** LightManager. */
  class LightManager<D, P> {
    var directional: D
    var pointLights: seq<P>

    predicate Valid()
      reads this
    {
      |pointLights| <= MAX_POINT_LIGHTS
    }

    /** The constructor installs the default sun, given here as a value, and no point lights. */
    constructor(sun: D)
      ensures Valid()
      ensures directional == sun && pointLights == []
    {
      directional := sun;
      pointLights := [];
    }

    /** SetDirectionalLight replaces only the directional light. */
    method SetDirectionalLight(light: D)
      modifies this
      ensures directional == light && pointLights == old(pointLights)
    {
      directional := light;
    }

    /** AddPointLight appends unless the list is already full. */
    method AddPointLight(light: P)
      requires Valid()
      modifies this
      ensures Valid()
      ensures pointLights == Added(old(pointLights), light) && directional == old(directional)
    {
      if |pointLights| < MAX_POINT_LIGHTS {
        pointLights := pointLights + [light];
      }
    }

    /** ClearPointLights empties the list and keeps the directional light. */
    method ClearPointLights()
      modifies this
      ensures Valid()
      ensures pointLights == [] && directional == old(directional)
    {
      pointLights := [];
    }

    /** RemovePointLight erases the indexed light; an index past the end is ignored. */
    method RemovePointLight(index: nat)
      requires Valid()
      modifies this
      ensures Valid()
      ensures pointLights == Removed(old(pointLights), index) && directional == old(directional)
    {
      if index < |pointLights| {
        pointLights := pointLights[..index] + pointLights[index + 1..];
      }
    }
  }
}
