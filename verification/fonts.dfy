/** The font table of the SDL engine: a fixed array of `MAX_FONTS` font
    pointers and the number of fonts loaded so far. Fonts are appended,
    looked up by index when text is rendered, and all closed at once.
    SDL_ttf is abstract: an open font is a positive number, and whether
    `TTF_OpenFont` succeeds is given. */
module Fonts {
  import opened CString

  const MAX_FONTS := 16

  /** The fonts held by the slots, in slot order; `None` is a NULL slot. */
  function Present(slots: seq<Option<nat>>): (fonts: seq<nat>)
    ensures |fonts| <= |slots|
    decreases |slots|
  {
    if slots == [] then []
    else Present(slots[..|slots| - 1]) + (if slots[|slots| - 1].Some? then [slots[|slots| - 1].value] else [])
  }

  /** Over slots that all hold a font, `Present` lists exactly those fonts. */
  lemma {:induction false} PresentAllSome(slots: seq<Option<nat>>)
    requires forall i :: 0 <= i < |slots| ==> slots[i].Some?
    ensures |Present(slots)| == |slots|
    ensures forall i :: 0 <= i < |slots| ==> Present(slots)[i] == slots[i].value
    decreases |slots|
  {
    if slots != [] {
      PresentAllSome(slots[..|slots| - 1]);
    }
  }

  /** `Present` of one more slot: that slot's font, if any, comes last. */
  lemma PresentStep(slots: seq<Option<nat>>, i: nat)
    requires i < |slots|
    ensures Present(slots[..i + 1]) == Present(slots[..i]) + (if slots[i].Some? then [slots[i].value] else [])
  {
    assert slots[..i + 1][..i] == slots[..i];
  }

  /** At most `MAX_FONTS` fonts are loaded, they sit in the first `count`
      slots, and every font ever issued is either still in the table or has
      been closed, exactly once. */
  ghost predicate Accounted(slots: seq<Option<nat>>, count: int, issued: seq<nat>, closed: seq<nat>) {
    0 <= count <= MAX_FONTS && count <= |slots| &&
    (forall i :: 0 <= i < count ==> slots[i].Some?) &&
    multiset(issued) == multiset(closed) + multiset(Present(slots[..count]))
  }

  /** Filling the first NULL slot with a newly issued font keeps every
      issued font accounted for. */
  lemma AppendAccounted(slots: seq<Option<nat>>, n: nat, f: nat, issued: seq<nat>, closed: seq<nat>)
    requires n < |slots| && n < MAX_FONTS && Accounted(slots, n, issued, closed)
    ensures Accounted(slots[n := Some(f)], n + 1, issued + [f], closed)
  {
    var after := slots[n := Some(f)];
    assert forall i :: 0 <= i < n + 1 ==> after[i].Some?;
    FillAccounted(slots, n, f, issued, closed);
  }

  /** The multiset half of `AppendAccounted`. */
  lemma FillAccounted(slots: seq<Option<nat>>, n: nat, f: nat, issued: seq<nat>, closed: seq<nat>)
    requires n < |slots| && Accounted(slots, n, issued, closed)
    ensures multiset(issued + [f]) == multiset(closed) + multiset(Present(slots[n := Some(f)][..n + 1]))
  {
    PresentFill(slots, n, f);
  }

  /** Filling slot `n` extends the fonts of the first `n` slots by one. */
  lemma PresentFill(slots: seq<Option<nat>>, n: nat, f: nat)
    requires n < |slots|
    ensures Present(slots[n := Some(f)][..n + 1]) == Present(slots[..n]) + [f]
  {
    var after := slots[n := Some(f)];
    assert after[..n] == slots[..n];
    PresentStep(after, n);
  }

  /** `loaded_fonts` and `num_loaded_fonts`. `closed` records the fonts
      passed to `TTF_CloseFont`, in order; `issued` records every font
      `TTF_OpenFont` returned. */
  class FontTable {
    const fonts: array<Option<nat>>
    var count: int
    var closed: seq<nat>
    ghost var issued: seq<nat>

    /** At most `MAX_FONTS` fonts are loaded, they sit in the first `count`
        slots, and every font ever issued is either still in the table or
        has been closed, exactly once. */
    ghost predicate Valid()
      reads this, fonts
    {
      fonts.Length == MAX_FONTS && Accounted(fonts[..], count, issued, closed)
    }

    /** The zero-initialised globals: every slot NULL, no font loaded. */
    constructor ()
      ensures Valid() && fresh(fonts)
      ensures count == 0 && closed == [] && issued == []
      ensures forall i :: 0 <= i < fonts.Length ==> fonts[i].None?
    {
      fonts := new Option<nat>[MAX_FONTS](_ => None);
      count, closed, issued := 0, [], [];
    }

    /** `load_fonts`: `open` is what `TTF_OpenFont` returns (`None` for
        NULL). A failed open returns 0 and changes nothing; a font that fits
        is appended at index `count` and 1 is returned; when the table is
        full the font is closed again, 0 is returned and the table is
        unchanged. */
    method Load(open: Option<nat>) returns (r: int)
      requires Valid()
      modifies this, fonts
      ensures Valid()
      ensures r == 1 <==> open.Some? && old(count) < MAX_FONTS
      ensures r == 0 || r == 1
      ensures r == 1 ==> fonts[..] == old(fonts[..])[old(count) := open] && count == old(count) + 1 && closed == old(closed)
      ensures r == 0 ==> fonts[..] == old(fonts[..]) && count == old(count)
      ensures r == 0 && open.Some? ==> closed == old(closed) + [open.value]
      ensures open.None? ==> closed == old(closed) && issued == old(issued)
      ensures open.Some? ==> issued == old(issued) + [open.value]
    {
      if open.None? {
        return 0;
      }
      if count < MAX_FONTS {
        Append(open.value);
        return 1;
      } else {
        issued := issued + [open.value];
        closed := closed + [open.value];
        return 0;
      }
    }

    /** `loaded_fonts[num_loaded_fonts++] = font` */
    method Append(f: nat)
      requires Valid() && count < MAX_FONTS
      modifies this, fonts
      ensures Valid()
      ensures fonts[..] == old(fonts[..])[old(count) := Some(f)] && count == old(count) + 1
      ensures closed == old(closed) && issued == old(issued) + [f]
    {
      ghost var before := fonts[..];
      AppendAccounted(before, count, f, issued, closed);
      fonts[count] := Some(f);
      assert fonts[..] == before[count := Some(f)];
      issued := issued + [f];
      count := count + 1;
    }

    /** The index check of `render_text`: the font it renders with, or
        `None` when the index is outside [0, `count`) and nothing is drawn. */
    function FontFor(index: int): (r: Option<nat>)
      requires Valid()
      reads this, fonts
      ensures r.Some? <==> 0 <= index < count
      ensures r.Some? ==> Some(r.value) == fonts[index] && r.value in Present(fonts[..count])
    {
      if index < 0 || index >= count then None
      else
        PresentAllSome(fonts[..count]);
        assert Present(fonts[..count])[index] == fonts[index].value;
        fonts[index]
    }

    /** `free_fonts`: close the font in every non-NULL slot below `count`,
        in order, NULL the slot, and reset `count` to 0. Afterwards every
        font ever issued has been closed exactly once. */
    method FreeFonts()
      requires Valid()
      modifies this, fonts
      ensures Valid() && count == 0
      ensures closed == old(closed) + Present(old(fonts[..count]))
      ensures forall i :: 0 <= i < old(count) ==> fonts[i].None?
      ensures forall i :: old(count) <= i < fonts.Length ==> fonts[i] == old(fonts[i])
      ensures multiset(closed) == multiset(issued) && issued == old(issued)
    {
      ghost var slots, closed0 := fonts[..], closed;
      var i := 0;
      while i < count
        invariant 0 <= i <= count && count == old(count) && issued == old(issued)
        invariant FreedUpTo(i, slots, closed0)
      {
        Release(i, slots, closed0);
        i := i + 1;
      }
      count := 0;
      assert fonts[..count] == [];
    }

    /** The first `i` slots of `slots` have been closed and NULLed, in
        order; the rest are untouched. */
    ghost predicate FreedUpTo(i: int, slots: seq<Option<nat>>, closed0: seq<nat>)
      reads this, fonts
    {
      0 <= i <= |slots| == fonts.Length && closed == closed0 + Present(slots[..i]) &&
      (forall k :: 0 <= k < i ==> fonts[k].None?) &&
      (forall k :: i <= k < fonts.Length ==> fonts[k] == slots[k])
    }

    /** The body of the `free_fonts` loop for slot `i`. */
    method Release(i: int, ghost slots: seq<Option<nat>>, ghost closed0: seq<nat>)
      requires i < |slots| && FreedUpTo(i, slots, closed0)
      modifies this, fonts
      ensures FreedUpTo(i + 1, slots, closed0)
      ensures count == old(count) && issued == old(issued)
    {
      PresentStep(slots, i);
      if fonts[i].Some? {
        closed := closed + [fonts[i].value];
        fonts[i] := None;
      }
    }
  }
}
