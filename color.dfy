/** `Color` of src/common/color.rs: a CSS colour kept as its string. */
module Colors {

  datatype Color = Color(value: string)

  /** `Color::value`. */
  function Value(c: Color): string
  {
    c.value
  }

  /** `From<String>`: takes the string over. */
  function FromString(value: string): (c: Color)
    ensures Value(c) == value
  {
    Color(value)
  }

  /** `From<&'static str>`: an owned copy of the text, the colour `From<String>` makes of it. */
  function FromStr(value: string): (c: Color)
    ensures c == FromString(value) && Value(c) == value
  {
    FromString(value[..])
  }

  /** `From<Color> for String`: gives the string back. */
  function IntoString(c: Color): (s: string)
    ensures FromString(s) == c
  {
    c.value
  }

  /** Both directions of the conversion round-trip. */
  lemma RoundTrip(s: string, c: Color)
    ensures IntoString(FromString(s)) == s && Value(FromString(s)) == s
    ensures FromString(IntoString(c)) == c
  {
  }
}
