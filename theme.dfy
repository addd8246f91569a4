/** The theme panel's colour lists: `themeState.accentColors` and `themeState.bgColors`, the
    buttons that add a colour to them and the button that removes one. */
module Theme {

  /** The most colours one list may hold. */
  const MaxColors := 5

  /** The colour `addAccentColor` appends. */
  const NewAccentColor := "#a78bfa"

  /** The colour `addBgColor` appends. */
  const NewBgColor := "#06b6d4"

  /** The length every list of the default theme and of the presets has, and that the editors keep. */
  predicate InBounds(colors: seq<string>)
  {
    1 <= |colors| <= MaxColors
  }

  /** The `push` behind the add buttons, refused once the list holds `MaxColors` colours. */
  function AddColor(colors: seq<string>, c: string): (r: seq<string>)
    ensures |colors| <= |r| <= |colors| + 1
    ensures r[..|colors|] == colors
    ensures |r| == |colors| + 1 <==> |colors| < MaxColors
    ensures |r| > |colors| ==> r[|colors|] == c
  {
    if |colors| >= MaxColors then colors else colors + [c]
  }

  /** Where `splice(index, 1)` starts: a negative index counts back from the end, and the
      result is clamped to the list. */
  function SpliceStart(len: nat, index: int): (start: nat)
    ensures start <= len
    ensures 0 <= index <= len ==> start == index
    ensures -(len as int) <= index < 0 ==> start == len + index
  {
    if index < 0 then (if len + index < 0 then 0 else len + index)
    else if index > len then len
    else index
  }

  /** `splice(index, 1)` behind the remove button, refused when the list holds one colour or none. */
  function RemoveColorAt(colors: seq<string>, index: int): (r: seq<string>)
    ensures |colors| <= 1 ==> r == colors
    ensures |colors| - 1 <= |r| <= |colors|
  {
    if |colors| <= 1 then colors
    else
      var start := SpliceStart(|colors|, index);
      if start == |colors| then colors else colors[..start] + colors[start + 1..]
  }

  /** Removing at a position inside the list drops exactly that colour and keeps the others in order. */
  lemma RemoveAtPosition(colors: seq<string>, i: int)
    requires 1 < |colors| && 0 <= i < |colors|
    ensures |RemoveColorAt(colors, i)| == |colors| - 1
    ensures forall j :: 0 <= j < i ==> RemoveColorAt(colors, i)[j] == colors[j]
    ensures forall j :: i <= j < |colors| - 1 ==> RemoveColorAt(colors, i)[j] == colors[j + 1]
    ensures multiset(RemoveColorAt(colors, i)) + multiset{colors[i]} == multiset(colors)
  {
    assert colors == colors[..i] + [colors[i]] + colors[i + 1..];
  }

  /** A negative position counts back from the end of the list, as `splice` does. */
  lemma RemoveFromEnd(colors: seq<string>, i: int)
    requires -|colors| <= i < 0
    ensures RemoveColorAt(colors, i) == RemoveColorAt(colors, |colors| + i)
  {
  }

  /** A position past the end removes nothing. */
  lemma RemovePastEnd(colors: seq<string>, i: int)
    requires i >= |colors|
    ensures RemoveColorAt(colors, i) == colors
  {
  }

  /** The add buttons never take a list past `MaxColors` and the remove button never empties
      one; so a list of 1 to 5 colours stays one of 1 to 5 colours, whatever is pressed. */
  lemma EditorsKeepBounds(colors: seq<string>, c: string, i: int)
    ensures |AddColor(colors, c)| <= if |colors| > MaxColors then |colors| else MaxColors
    ensures |RemoveColorAt(colors, i)| >= if |colors| < 1 then |colors| else 1
    ensures InBounds(colors) ==> InBounds(AddColor(colors, c)) && InBounds(RemoveColorAt(colors, i))
  {
  }

  /** Which list a button acts on: `type === 'accent'`, and the background list otherwise. */
  datatype Palette = Accent | Background

  /** `themeState`: the two colour lists and their gradient angles. */
  class ThemeState {
    var accentColors: seq<string>
    var accentAngle: int
    var bgColors: seq<string>
    var bgAngle: int

    predicate Valid()
      reads this
    {
      InBounds(accentColors) && InBounds(bgColors)
    }

    /** `{ ...DEFAULT_THEME }`. */
    constructor()
      ensures accentColors == ["#6366f1", "#8b5cf6"] && accentAngle == 135
      ensures bgColors == ["#6366f1", "#8b5cf6", "#06b6d4"] && bgAngle == 135
      ensures Valid()
    {
      accentColors := ["#6366f1", "#8b5cf6"];
      accentAngle := 135;
      bgColors := ["#6366f1", "#8b5cf6", "#06b6d4"];
      bgAngle := 135;
    }

    /** `addAccentColor`; `full` is the "Máximo 5 colores" notice. */
    method AddAccentColor() returns (full: bool)
      modifies this`accentColors
      ensures full <==> |old(accentColors)| >= MaxColors
      ensures accentColors == AddColor(old(accentColors), NewAccentColor)
      ensures old(Valid()) ==> Valid()
    {
      if |accentColors| >= MaxColors {
        full := true;
        return;
      }
      accentColors := accentColors + [NewAccentColor];
      full := false;
    }

    /** `addBgColor`; `full` is the "Máximo 5 colores" notice. */
    method AddBgColor() returns (full: bool)
      modifies this`bgColors
      ensures full <==> |old(bgColors)| >= MaxColors
      ensures bgColors == AddColor(old(bgColors), NewBgColor)
      ensures old(Valid()) ==> Valid()
    {
      if |bgColors| >= MaxColors {
        full := true;
        return;
      }
      bgColors := bgColors + [NewBgColor];
      full := false;
    }

    /** `removeColor(type, index)`: only the chosen list changes. */
    method RemoveColor(palette: Palette, index: int)
      modifies this`accentColors, this`bgColors
      ensures palette == Accent ==> accentColors == RemoveColorAt(old(accentColors), index) && bgColors == old(bgColors)
      ensures palette == Background ==> bgColors == RemoveColorAt(old(bgColors), index) && accentColors == old(accentColors)
      ensures old(Valid()) ==> Valid()
    {
      if palette == Accent {
        if |accentColors| <= 1 {
          return;
        }
        var start := SpliceStart(|accentColors|, index);
        if start < |accentColors| {
          accentColors := accentColors[..start] + accentColors[start + 1..];
        }
      } else {
        if |bgColors| <= 1 {
          return;
        }
        var start := SpliceStart(|bgColors|, index);
        if start < |bgColors| {
          bgColors := bgColors[..start] + bgColors[start + 1..];
        }
      }
    }
  }
}
