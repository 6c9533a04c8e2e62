/** The hero heading renders the owner's name one character per animated
    span; a plain space would collapse inside its inline-block span, so it is
    rendered as a non-breaking space. */
module Hero {

  /** U+00A0 NO-BREAK SPACE. */
  const Nbsp: char := '\U{00A0}'

  /** The name shown in the hero heading. */
  const Name: string := "Bharat Kumar"

  /** What one span shows for one character of the name. */
  function Glyph(c: char): (g: char)
    ensures c == ' ' ==> g == Nbsp
    ensures c != ' ' ==> g == c
    ensures g != ' '
  {
    if c == ' ' then Nbsp else c
  }

  /** The characters of `name`, each mapped to what its span shows. */
  function Glyphs(name: string): (glyphs: string)
    ensures |glyphs| == |name|
    ensures forall i :: 0 <= i < |name| && name[i] == ' ' ==> glyphs[i] == Nbsp
    ensures forall i :: 0 <= i < |name| && name[i] != ' ' ==> glyphs[i] == name[i]
    ensures ' ' !in glyphs
  {
    seq(|name|, i requires 0 <= i < |name| => Glyph(name[i]))
  }

  /** The mapping works character by character, so it distributes over
      concatenation. */
  lemma GlyphsConcat(a: string, b: string)
    ensures Glyphs(a + b) == Glyphs(a) + Glyphs(b)
  {
  }

  /** Mapping the spans a second time changes nothing: no plain space is left. */
  lemma GlyphsIdempotent(name: string)
    ensures Glyphs(Glyphs(name)) == Glyphs(name)
  {
  }

  /** The one space of the hero name becomes a non-breaking space and the
      twelve spans spell the name otherwise unchanged. */
  lemma HeroNameGlyphs()
    ensures Glyphs(Name) == "Bharat\U{00A0}Kumar"
  {
    var g := Glyphs(Name);
    assert g[6] == Nbsp;
    assert g[..6] == Name[..6];
    assert g[7..] == Name[7..];
    assert g == g[..6] + [g[6]] + g[7..];
  }
}
