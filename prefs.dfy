// Unity's PlayerPrefs as an explicit key-value store shared by the exam, ending and achievement code.
module Prefs {
  /** A stored preference: Unity keeps ints, floats and strings apart. */
  datatype PrefValue = IntValue(i: int) | FloatValue(f: real) | StringValue(s: string)

  /** `GetInt(key, default)`: the default when the key is absent or holds another type. */
  function IntOf(entries: map<string, PrefValue>, key: string, default: int): int
  {
    if key in entries && entries[key].IntValue? then entries[key].i else default
  }

  /** `GetFloat(key, default)`: the default when the key is absent or holds another type. */
  function FloatOf(entries: map<string, PrefValue>, key: string, default: real): real
  {
    if key in entries && entries[key].FloatValue? then entries[key].f else default
  }

  /** Reading back a written int gives it; other keys are unaffected. */
  lemma IntAfterSet(entries: map<string, PrefValue>, key: string, v: int, other: string, default: int)
    ensures IntOf(entries[key := IntValue(v)], key, default) == v
    ensures other != key ==> IntOf(entries[key := IntValue(v)], other, default) == IntOf(entries, other, default)
    ensures other != key ==> FloatOf(entries[key := IntValue(v)], other, 0.0) == FloatOf(entries, other, 0.0)
  {
  }

  /** An int written under a key hides any float there. */
  lemma FloatAfterIntSet(entries: map<string, PrefValue>, key: string, v: int, default: real)
    ensures FloatOf(entries[key := IntValue(v)], key, default) == default
  {
  }

  class PlayerPrefs {
    var entries: map<string, PrefValue>

    constructor ()
      ensures entries == map[]
    {
      entries := map[];
    }

    predicate HasKey(key: string) reads this { key in entries }

    function GetInt(key: string, default: int): int reads this { IntOf(entries, key, default) }

    function GetFloat(key: string, default: real): real reads this { FloatOf(entries, key, default) }

    method SetInt(key: string, value: int)
      modifies this
      ensures entries == old(entries)[key := IntValue(value)]
    {
      entries := entries[key := IntValue(value)];
    }

    method SetFloat(key: string, value: real)
      modifies this
      ensures entries == old(entries)[key := FloatValue(value)]
    {
      entries := entries[key := FloatValue(value)];
    }

    method DeleteKey(key: string)
      modifies this
      ensures entries == old(entries) - {key}
    {
      entries := entries - {key};
    }
  }
}
