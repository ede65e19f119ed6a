/** The scene's object and light lists (src/Scene.cpp): append, and removal
    of the first equal element. Elements are compared with their own `==`,
    which the model takes as given. */
module SceneLists {

  /** `std::find`: the position of the first element equal to `x`, or `|s|`
      when there is none. */
  function Find<T(==)>(s: seq<T>, x: T): (i: nat)
    ensures i <= |s|
    ensures i < |s| ==> s[i] == x
    ensures forall j :: 0 <= j < i ==> s[j] != x
    ensures i == |s| <==> x !in s
  {
    if s == [] then 0
    else if s[0] == x then 0
    else 1 + Find(s[1..], x)
  }

  /** `find` then `erase`: the list without its first element equal to `x`. */
  function RemoveFirst<T(==)>(s: seq<T>, x: T): (r: seq<T>)
    ensures x !in s ==> r == s
    ensures x in s ==> |r| == |s| - 1
    ensures x in s ==> multiset(r) == multiset(s) - multiset{x}
    ensures x in s ==> exists i :: 0 <= i < |s| && s[i] == x && x !in s[..i] && r == s[..i] + s[i + 1..]
  {
    var i := Find(s, x);
    if i == |s| then s
    else
      assert s == s[..i] + [s[i]] + s[i + 1..];
      assert x !in s[..i];
      s[..i] + s[i + 1..]
  }

  /** Removing what was just appended succeeds, and restores the list when
      no equal element was there before. */
  lemma AddThenRemove<T>(s: seq<T>, x: T)
    ensures x in s + [x]
    ensures x !in s ==> RemoveFirst(s + [x], x) == s
  {
    assert (s + [x])[|s|] == x;
    if x !in s {
      assert Find(s + [x], x) == |s|;
      assert (s + [x])[..|s|] == s;
    }
  }

  class Scene<Object(==), Light(==)> {
    var objects: seq<Object>
    var dirLights: seq<Light>

    constructor ()
      ensures objects == [] && dirLights == []
    {
      objects := [];
      dirLights := [];
    }

    method AddObject(renderable: Object)
      modifies this
      ensures objects == old(objects) + [renderable]
      ensures dirLights == old(dirLights)
    {
      objects := objects + [renderable];
    }

    method RemoveObject(renderable: Object) returns (removed: bool)
      modifies this
      ensures removed <==> renderable in old(objects)
      ensures objects == RemoveFirst(old(objects), renderable)
      ensures dirLights == old(dirLights)
    {
      var it := Find(objects, renderable);
      if it == |objects| {
        return false;
      }

      objects := objects[..it] + objects[it + 1..];
      return true;
    }

    method AddLight(light: Light)
      modifies this
      ensures dirLights == old(dirLights) + [light]
      ensures objects == old(objects)
    {
      dirLights := dirLights + [light];
    }

    method RemoveLight(light: Light) returns (removed: bool)
      modifies this
      ensures removed <==> light in old(dirLights)
      ensures dirLights == RemoveFirst(old(dirLights), light)
      ensures objects == old(objects)
    {
      var it := Find(dirLights, light);
      if it == |dirLights| {
        return false;
      }

      dirLights := dirLights[..it] + dirLights[it + 1..];
      return true;
    }
  }
}
