/** Button labels derived from lower-case keys: the first character is
    upper-cased and the rest is kept, as both the navigation menus and the
    project filter tabs render them. */
module Labels {

  predicate IsLowerAscii(c: char) {
    'a' <= c <= 'z'
  }

  /** Upper-casing of one character, on the ASCII letters. */
  function UpperAscii(c: char): (u: char)
    ensures IsLowerAscii(c) ==> 'A' <= u <= 'Z' && u as int + 32 == c as int
    ensures !IsLowerAscii(c) ==> u == c
    ensures !IsLowerAscii(u)
  {
    if IsLowerAscii(c) then (c as int - 32) as char else c
  }

  /** `key.charAt(0).toUpperCase() + key.slice(1)`: on the empty key both
      halves are empty. */
  function Capitalize(key: string): (text: string)
    ensures |text| == |key|
    ensures key != [] ==> text[0] == UpperAscii(key[0])
    ensures forall i :: 1 <= i < |key| ==> text[i] == key[i]
  {
    var head := if key == [] then "" else [UpperAscii(key[0])];
    var tail := if |key| <= 1 then "" else key[1..];
    head + tail
  }

  /** Capitalising a label a second time changes nothing. */
  lemma CapitalizeIdempotent(key: string)
    ensures Capitalize(Capitalize(key)) == Capitalize(key)
  {
  }

  /** Two keys that start with a lower-case letter (or are empty) get the same
      label only if they are the same key, so distinct keys give distinct
      buttons. */
  lemma CapitalizeInjective(a: string, b: string)
    requires a == [] || IsLowerAscii(a[0])
    requires b == [] || IsLowerAscii(b[0])
    requires Capitalize(a) == Capitalize(b)
    ensures a == b
  {
    assert |a| == |b|;
    if a != [] {
      assert UpperAscii(a[0]) == Capitalize(a)[0] == Capitalize(b)[0] == UpperAscii(b[0]);
      assert a[0] == b[0];
      forall i | 0 <= i < |a| ensures a[i] == b[i] {
        if i > 0 {
          assert Capitalize(a)[i] == Capitalize(b)[i];
        }
      }
    }
  }

  /** The labels of a list of keys, in the list's order. */
  function CapitalizeAll(keys: seq<string>): (labels: seq<string>)
    ensures |labels| == |keys|
    ensures forall i :: 0 <= i < |keys| ==> labels[i] == Capitalize(keys[i])
  {
    if keys == [] then [] else [Capitalize(keys[0])] + CapitalizeAll(keys[1..])
  }
}
