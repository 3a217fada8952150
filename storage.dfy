/**
 * PropertyStorage: a string-keyed dictionary of arbitrary values that polygons
 * share by reference (CSharpCSG/PropertyStorage.cs).
 */
module Storage {
  import opened Wrappers

  /** The values the library stores. `Ref` is any object; `PolygonRefs` is a list of polygons, each
      by its reference number. */
  datatype Value = Str(s: string) | Int(i: int) | Colour(r: nat, g: nat, b: nat) | Ref(obj: object)
                  | PolygonRefs(refs: seq<nat>)

  /** The type argument T of getValue<T>: which stored values are a T, whether T is a
      value type (so that a null cannot be cast to it), and default(T) for a value type. */
  datatype TypeArg = TypeArg(accepts: Value -> bool, valueType: bool, default: Value)

  const StringType: TypeArg := TypeArg((v: Value) => v.Str?, false, Str(""))
  const IntType: TypeArg := TypeArg((v: Value) => v.Int?, true, Int(0))
  const ColourType: TypeArg := TypeArg((v: Value) => v.Colour?, true, Colour(0, 0, 0))

  const ColorKey := "material:color"

  /** The nine palette colours red, yellow, green, blue, magenta, white, black, gray and
      orange, as their red, green and blue channels. */
  const Palette: seq<Value> := [
    Colour(255, 0, 0), Colour(255, 255, 0), Colour(0, 128, 0), Colour(0, 0, 255), Colour(255, 0, 255),
    Colour(255, 255, 255), Colour(0, 0, 0), Colour(128, 128, 128), Colour(255, 165, 0)]

  /** The palette slot chosen for a draw in [0, 1) of the random generator. */
  function ColourIndex(draw: real): (i: nat)
    requires 0.0 <= draw < 1.0
    ensures i < |Palette|
  {
    (draw * 9.0).Floor
  }

  /** Decimal digits of a natural number. */
  function DecimalText(n: nat): (s: string)
    ensures |s| > 0
    ensures forall k :: 0 <= k < |s| ==> '0' <= s[k] <= '9'
  {
    if n < 10 then [(48 + n) as char] else DecimalText(n / 10) + [(48 + n % 10) as char]
  }

  /** The text "R G B" that randomColor stores for a palette colour. */
  function ColourText(c: Value): string
    requires c.Colour?
  {
    DecimalText(c.r) + " " + DecimalText(c.g) + " " + DecimalText(c.b)
  }

  /** getValue<T>(key) on the dictionary m: the stored value when it is a T; for a stored
      value that is not a T, a null cast to T (an exception for a value type); for a
      missing key, default(T) (null for a reference type). */
  function Lookup(m: map<string, Value>, key: string, t: TypeArg): (r: Result<Option<Value>>)
    ensures key in m && t.accepts(m[key]) ==> r == Success(Some(m[key]))
    ensures key in m && !t.accepts(m[key]) ==> r == (if t.valueType then Failure(NullReference) else Success(None))
    ensures key !in m ==> r == (if t.valueType then Success(Some(t.default)) else Success(None))
  {
    if key in m then
      if t.accepts(m[key]) then Success(Some(m[key]))
      else if t.valueType then Failure(NullReference)
      else Success(None)
    else if t.valueType then Success(Some(t.default))
    else Success(None)
  }

  class PropertyStorage {
    var entries: map<string, Value>

    /** A fresh storage holds one entry: a palette colour's "R G B" text under
        "material:color". `draw` is the random generator's value in [0, 1). */
    constructor (draw: real)
      requires 0.0 <= draw < 1.0
      ensures entries == map[ColorKey := Str(ColourText(Palette[ColourIndex(draw)]))]
    {
      entries := map[];
      new;
      RandomColour(draw);
    }

    method RandomColour(draw: real)
      requires 0.0 <= draw < 1.0
      modifies this
      ensures entries == old(entries)[ColorKey := Str(ColourText(Palette[ColourIndex(draw)]))]
    {
      var c := Palette[ColourIndex(draw)];
      Set(ColorKey, Str(ColourText(c)));
    }

    method Set(key: string, v: Value)
      modifies this
      ensures entries == old(entries)[key := v]
      ensures Lookup(entries, key, TypeArg((_: Value) => true, false, v)) == Success(Some(v))
      ensures forall k :: k != key ==> (k in entries <==> k in old(entries))
      ensures forall k :: k != key && k in entries ==> entries[k] == old(entries)[k]
    {
      entries := entries[key := v];
    }

    method GetValue(key: string, t: TypeArg) returns (r: Result<Option<Value>>)
      ensures r == Lookup(entries, key, t)
    {
      if key in entries {
        var value := entries[key];
        if t.accepts(value) {
          r := Success(Some(value));
        } else if t.valueType {
          r := Failure(NullReference);
        } else {
          r := Success(None);
        }
      } else if t.valueType {
        r := Success(Some(t.default));
      } else {
        r := Success(None);
      }
    }

    method Delete(key: string)
      modifies this
      ensures entries == old(entries) - {key}
      ensures key !in entries
      ensures key !in old(entries) ==> entries == old(entries)
      ensures forall k :: k != key ==> (k in entries <==> k in old(entries))
      ensures forall k :: k != key && k in entries ==> entries[k] == old(entries)[k]
    {
      entries := entries - {key};
    }

    method Contains(key: string) returns (b: bool)
      ensures b <==> key in entries
    {
      b := key in entries;
    }
  }

  /** After set(k, v), contains(k) holds and getValue<T>(k) returns v when v is a T. */
  lemma SetThenGet(m: map<string, Value>, k: string, v: Value, t: TypeArg)
    requires t.accepts(v)
    ensures k in m[k := v]
    ensures Lookup(m[k := v], k, t) == Success(Some(v))
  {
  }

  /** Setting a key twice keeps only the second value. */
  lemma SetOverwrites(m: map<string, Value>, k: string, v1: Value, v2: Value, t: TypeArg)
    ensures Lookup(m[k := v1][k := v2], k, t) == Lookup(m[k := v2], k, t)
  {
  }

  /** set and delete on one key leave every other key's lookup unchanged. */
  lemma OtherKeysUnchanged(m: map<string, Value>, k: string, v: Value, other: string, t: TypeArg)
    requires other != k
    ensures Lookup(m[k := v], other, t) == Lookup(m, other, t)
    ensures Lookup(m - {k}, other, t) == Lookup(m, other, t)
  {
  }

  /** A fresh storage contains "material:color" as the text of one of the nine colours,
      and a lookup of it as a colour (a value type) throws, because a string is stored. */
  lemma FreshStorageColour(draw: real)
    requires 0.0 <= draw < 1.0
    ensures var m := map[ColorKey := Str(ColourText(Palette[ColourIndex(draw)]))];
      && ColorKey in m
      && (exists i :: 0 <= i < |Palette| && m[ColorKey] == Str(ColourText(Palette[i])))
      && Lookup(m, ColorKey, StringType) == Success(Some(m[ColorKey]))
      && Lookup(m, ColorKey, ColourType) == Failure(NullReference)
  {
    var i := ColourIndex(draw);
    assert 0 <= i < |Palette|;
  }
}
