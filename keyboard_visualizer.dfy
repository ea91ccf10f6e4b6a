/** The keyboard heat map (frontend/src/components/typing/KeyboardVisualizer.tsx). */
module KeyboardVisualizer {
  import opened Basics
  import opened KeyStats

  datatype Layout = Qwerty | Azerty | Dvorak | Colemak | Qwertz

  /** The heat-map classes a key can get. */
  datatype KeyColor = Gray | Red | Orange | Green | Blue

  function ClassName(c: KeyColor): string {
    match c
    case Gray => "bg-gray-100"
    case Red => "bg-red-500"
    case Orange => "bg-orange-300"
    case Green => "bg-green-400"
    case Blue => "bg-blue-300"
  }

  const QwertyLayout: seq<seq<char>> := [
    ['q', 'w', 'e', 'r', 't', 'y', 'u', 'i', 'o', 'p'],
    ['a', 's', 'd', 'f', 'g', 'h', 'j', 'k', 'l'],
    ['z', 'x', 'c', 'v', 'b', 'n', 'm']
  ]

  /** The rows the component draws: the `layout` prop is never read. */
  function RenderedRows(layout: Layout): (rows: seq<seq<char>>)
    ensures |rows| == 3 && |rows[0]| == 10 && |rows[1]| == 9 && |rows[2]| == 7
  {
    QwertyLayout
  }

  /** Every layout renders the same rows. */
  lemma LayoutIgnored(a: Layout, b: Layout)
    ensures RenderedRows(a) == RenderedRows(b)
  {
  }

  /** `errors / total` as JavaScript computes it; a zero total gives NaN or an infinity. */
  function ErrorRate(d: KeyData): (r: JsNumber)
    ensures d.total != 0 ==> r == Finite(d.errors as real / d.total as real)
    ensures d.total == 0 && d.errors > 0 ==> r == PosInfinity
    ensures d.total == 0 && d.errors == 0 ==> r == NaN
  {
    JsDivide(d.errors as real, d.total as real)
  }

  /** `getKeyColor`: the first rule that matches decides. */
  function GetKeyColor(data: Option<KeyData>): (c: KeyColor)
    ensures data.None? ==> c == Gray
    ensures data.Some? && data.value.total > 0 ==>
      (c == Red <==> data.value.errors as real / data.value.total as real > 0.3)
    ensures data.Some? && data.value.total > 0 ==>
      (c == Orange <==> 0.1 < data.value.errors as real / data.value.total as real <= 0.3)
    ensures data.Some? && data.value.total > 0 ==>
      (c == Green <==> data.value.errors as real / data.value.total as real <= 0.1 && data.value.total > 10)
    ensures data.Some? && data.value.total > 0 ==>
      (c == Blue <==> data.value.errors as real / data.value.total as real <= 0.1 && data.value.total <= 10)
    ensures data.Some? && data.value.total > 0 ==> c != Gray
  {
    if data.None? then Gray
    else
      var errorRate := ErrorRate(data.value);
      assert data.value.total > 0 ==> errorRate == Finite(data.value.errors as real / data.value.total as real);
      if JsGreater(errorRate, 0.3) then Red
      else if JsGreater(errorRate, 0.1) then Orange
      else if data.value.total > 10 then Green
      else if data.value.total > 0 then Blue
      else Gray
  }

  /** A key typed without errors is blue up to ten presses and green beyond. */
  lemma CleanKeyColor(total: int, times: seq<int>, last: Option<int>)
    requires total > 0
    ensures GetKeyColor(Some(KeyData(total, 0, times, last))) == if total > 10 then Green else Blue
  {
    assert ErrorRate(KeyData(total, 0, times, last)) == Finite(0.0);
  }

  /** With no presses recorded, the division yields NaN or an infinity, which the rules handle as shown. */
  lemma ZeroTotalColors(errors: int)
    ensures GetKeyColor(Some(KeyData(0, errors, [], None))) == if errors > 0 then Red else Gray
  {
  }

  /** `getKeyIntensity`: presses relative to 20, capped at 1. */
  function GetKeyIntensity(data: Option<KeyData>): (r: real)
    ensures r <= 1.0
    ensures data.None? ==> r == 1.0
    ensures data.Some? && data.value.total >= 0 ==> 0.0 <= r
    ensures data.Some? && 0 <= data.value.total <= 20 ==> r * 20.0 == data.value.total as real
  {
    if data.None? then 1.0 else MinReal(data.value.total as real / 20.0, 1.0)
  }

  function Opacity(intensity: real): (r: real)
    ensures 0.0 <= intensity <= 1.0 ==> 0.5 <= r <= 1.0
  {
    0.5 + intensity * 0.5
  }

  function Scale(intensity: real): (r: real)
    ensures 0.0 <= intensity <= 1.0 ==> 0.9 <= r <= 1.1
  {
    0.9 + intensity * 0.2
  }

  /** Any entry recorded by the typing area is drawn with opacity in [0.5, 1] and scale in [0.9, 1.1], and never gray. */
  lemma RecordedKeyStyle(d: KeyData)
    requires WellFormed(d) && d.total >= 1
    ensures 0.5 <= Opacity(GetKeyIntensity(Some(d))) <= 1.0
    ensures 0.9 <= Scale(GetKeyIntensity(Some(d))) <= 1.1
    ensures GetKeyColor(Some(d)) != Gray
  {
  }
}
