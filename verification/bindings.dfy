/** How the drawing functions the engine registers with Lua read their
    arguments: `luaL_checkinteger`/`luaL_optinteger` by position, the colour
    channels with their defaults, and `CLAMP` into [0, 255] before the
    native draw call. A native draw call is recorded as a `DrawCall` value. */
module Bindings {
  import opened CString

  /** A `lua_Integer`: a 64-bit two's-complement integer. */
  type LuaInteger = v: int | LONG_MIN <= v <= LONG_MAX

  /** A Lua value at an argument position, as the auxiliary library sees it:
      `Nil` also stands for a position past the last argument ("none"),
      `Integer` for a number of Lua's integer subtype (a `lua_Integer`),
      `Str` for a string, and `Other` for a boolean, a table, a function or
      a userdata, which `luaL_checkinteger` and `luaL_checkstring` both
      refuse. Numbers of Lua's float subtype are not modelled. */
  datatype Arg = Nil | Integer(v: LuaInteger) | Str(s: string) | Other

  /** The value at Lua argument position `n` (counted from 1). */
  function ArgAt(args: seq<Arg>, n: nat): (a: Arg)
    requires n >= 1
    ensures n > |args| ==> a == Nil
  {
    if n <= |args| then args[n - 1] else Nil
  }

  /** What a binding returns: its result, or the Lua error
      "bad argument #index" that `luaL_check*` raises. */
  datatype Outcome<T> = Ok(value: T) | BadArgument(index: nat)

  /** `CLAMP(value, min, max)`. */
  function Clamp(v: int, lo: int, hi: int): (r: int)
    requires lo <= hi
    ensures lo <= r <= hi
    ensures lo <= v <= hi ==> r == v
    ensures v < lo ==> r == lo
    ensures v > hi ==> r == hi
  {
    if v < lo then lo else if v > hi then hi else v
  }

  /** Clamping twice is clamping once, and clamping keeps the order. */
  lemma ClampProperties(v: int, w: int, lo: int, hi: int)
    requires lo <= hi
    ensures Clamp(Clamp(v, lo, hi), lo, hi) == Clamp(v, lo, hi)
    ensures v <= w ==> Clamp(v, lo, hi) <= Clamp(w, lo, hi)
  {
  }

  /** `luaL_checkstring`: a string, or a number converted to its decimal text. */
  function CheckString(args: seq<Arg>, n: nat): (r: Outcome<string>)
    requires n >= 1
    ensures r.Ok? <==> ArgAt(args, n).Str? || ArgAt(args, n).Integer?
    ensures ArgAt(args, n).Str? ==> r == Ok(ArgAt(args, n).s)
    ensures r.BadArgument? ==> r.index == n
  {
    match ArgAt(args, n)
    case Str(s) => Ok(s)
    case Integer(v) => Ok(IntegerText(v))
    case _ => BadArgument(n)
  }

  /** `lua_Integer` printed with "%lld". */
  function IntegerText(v: int): (s: string)
    ensures s != []
  {
    if v < 0 then "-" + Decimal(-v) else Decimal(v)
  }

  /** Lua's coercion of a string to an integer, for decimal numerals: white
      space, an optional sign and one or more decimal digits, then white
      space, with a value that fits a `lua_Integer`. A numeral out of that
      range is read as the nearest double instead, and only a double with
      an integer representation converts: from -2^63 - 1024 to -2^63 - 1
      the nearest double is -2^63 itself (the tie at -2^63 - 1024 goes to
      the even mantissa), so those numerals give `LONG_MIN`; every other
      out-of-range numeral is refused. Any other string gives `None`. */
  function StringInteger(s: string): (r: Option<int>)
    ensures r.Some? ==> LONG_MIN <= r.value <= LONG_MAX
    ensures r.Some? ==> exists k :: 0 <= k < |s| && IsDigit(s[k])
  {
    var i := SkipSpace(s, 0);
    var j := BackOverSpace(s, i, |s|);
    var d := if i < j && (s[i] == '-' || s[i] == '+') then i + 1 else i;
    if d < j && DigitsEnd(s, d) == j then
      assert IsDigit(s[d]);
      var v := if s[i] == '-' then -DigitsValue(s[d..j]) else DigitsValue(s[d..j]);
      if LONG_MIN <= v <= LONG_MAX then Some(v)
      else if LONG_MIN - 1024 <= v < LONG_MIN then Some(LONG_MIN)
      else None
    else None
  }

  /** A `lua_Integer` printed in decimal converts back to itself, with any
      white space around it. */
  lemma StringIntegerText(v: int, pre: string, post: string)
    requires LONG_MIN <= v <= LONG_MAX
    requires forall k :: 0 <= k < |pre| ==> IsSpace(pre[k])
    requires forall k :: 0 <= k < |post| ==> IsSpace(post[k])
    ensures StringInteger(pre + IntegerText(v) + post) == Some(v)
  {
    var t := IntegerText(v);
    var s := pre + t + post;
    var i, j := |pre|, |pre| + |t|;
    assert s[i..j] == t;
    forall k | 0 <= k < i ensures IsSpace(s[k]) {
      assert s[k] == pre[k];
    }
    forall k | j <= k < |s| ensures IsSpace(s[k]) {
      assert s[k] == post[k - j];
    }
    if v < 0 {
      assert s[i] == t[0] == '-';
      assert s[i + 1..j] == t[1..] == Decimal(-v);
      NumeralAt(s, i, i + 1, j, true, -v);
    } else {
      NumeralAt(s, i, i, j, false, v);
    }
  }

  /** `StringInteger` of a text whose only non-space part is a numeral:
      a minus sign at `i` exactly when `neg`, then the digits of `n` on
      [`d`, `j`). */
  lemma NumeralAt(s: string, i: nat, d: nat, j: nat, neg: bool, n: nat)
    requires d == (if neg then i + 1 else i) && d <= j <= |s|
    requires neg ==> s[i] == '-'
    requires forall k :: 0 <= k < i ==> IsSpace(s[k])
    requires forall k :: j <= k < |s| ==> IsSpace(s[k])
    requires s[d..j] == Decimal(n)
    requires LONG_MIN <= (if neg then -(n as int) else n) <= LONG_MAX
    ensures StringInteger(s) == Some(if neg then -(n as int) else n)
  {
    NumeralDigits(s, d, j, n);
    assert !neg ==> s[i] == s[d..j][0];
    NumeralBounds(s, i, d, j, n);
    assert (s[i] == '-' <==> neg) && (s[i] == '-' || s[i] == '+' <==> d == i + 1);
  }

  /** Where the scans of `StringInteger` stop on such a text, and the value
      of the digits between. */
  lemma NumeralBounds(s: string, i: nat, d: nat, j: nat, n: nat)
    requires i <= d < j <= |s| && !IsSpace(s[i])
    requires forall k :: 0 <= k < i ==> IsSpace(s[k])
    requires forall k :: j <= k < |s| ==> IsSpace(s[k])
    requires forall k :: d <= k < j ==> IsDigit(s[k])
    requires s[d..j] == Decimal(n)
    ensures SkipSpace(s, 0) == i && BackOverSpace(s, i, |s|) == j
    ensures DigitsEnd(s, d) == j && DigitsValue(s[d..j]) == n
  {
    SkipSpaceAt(s, 0, i);
    BackOverSpaceAt(s, i, j, |s|);
    DigitsRunTo(s, d, j);
    DecimalValue(n);
  }

  /** A decimal numeral beyond `LONG_MAX` has no `lua_Integer` value and is
      refused, as Lua reads it as a float with no integer representation. */
  lemma StringIntegerBeyondRange(n: nat)
    requires n > LONG_MAX
    ensures StringInteger(Decimal(n)) == None
  {
    var s := Decimal(n);
    assert s[0..|s|] == s;
    NumeralDigits(s, 0, |s|, n);
    NumeralBounds(s, 0, 0, |s|, n);
  }

  /** A negative decimal numeral below `LONG_MIN` converts to `LONG_MIN` when
      its nearest double is -2^63, and is refused otherwise. */
  lemma StringIntegerBelowRange(n: nat)
    requires n > -LONG_MIN
    ensures StringInteger("-" + Decimal(n)) ==
      (if n <= -LONG_MIN + 1024 then Some(LONG_MIN) else None)
  {
    var s := "-" + Decimal(n);
    assert s[1..|s|] == Decimal(n);
    NumeralDigits(s, 1, |s|, n);
    NumeralBounds(s, 0, 1, |s|, n);
  }

  /** The characters of a slice holding a decimal numeral are digits. */
  lemma NumeralDigits(s: string, d: nat, j: nat, n: nat)
    requires d <= j <= |s| && s[d..j] == Decimal(n)
    ensures d < j && forall k :: d <= k < j ==> IsDigit(s[k])
  {
    forall k | d <= k < j ensures IsDigit(s[k]) {
      assert s[k] == s[d..j][k - d];
    }
  }

  /** A run of digits that ends at `j` with a non-digit or the end of the text. */
  lemma {:induction false} DigitsRunTo(s: string, d: nat, j: nat)
    requires d <= j <= |s|
    requires forall k :: d <= k < j ==> IsDigit(s[k])
    requires j < |s| ==> !IsDigit(s[j])
    ensures DigitsEnd(s, d) == j
    decreases j - d
  {
    if d < j {
      DigitsRunTo(s, d + 1, j);
    }
  }

  /** Text around the digits, or no digits at all, is refused. */
  lemma StringIntegerRefuses()
    ensures StringInteger("12a") == None && StringInteger("") == None
    ensures StringInteger("-") == None && StringInteger("1 2") == None
  {
    assert SkipSpace("12a", 0) == 0 && BackOverSpace("12a", 0, 3) == 3 && DigitsEnd("12a", 0) == 2;
    assert SkipSpace("-", 0) == 0 && BackOverSpace("-", 0, 1) == 1;
    assert SkipSpace("1 2", 0) == 0 && BackOverSpace("1 2", 0, 3) == 3 && DigitsEnd("1 2", 0) == 1;
  }

  /** `lua_tointegerx` on an argument: its integer, if it has one. */
  function ToInteger(a: Arg): (r: Option<int>)
    ensures r.Some? ==> LONG_MIN <= r.value <= LONG_MAX
  {
    match a
    case Integer(v) => Some(v)
    case Str(s) => StringInteger(s)
    case _ => None
  }

  /** An integer parameter: `luaL_checkinteger`, or `luaL_optinteger` with its default. */
  datatype Param = Required | Optional(default: int)

  /** `luaL_checkinteger` takes what converts to an integer; `luaL_optinteger`
      also takes nil or nothing. */
  predicate Accepts(a: Arg, p: Param) {
    ToInteger(a).Some? || (p.Optional? && a.Nil?)
  }

  function Value(a: Arg, p: Param): int
    requires Accepts(a, p)
  {
    if ToInteger(a).Some? then ToInteger(a).value else p.default
  }

  /** Position `n` holds a value that converts to an integer. */
  predicate IsIntegerAt(args: seq<Arg>, n: nat)
    requires n >= 1
  {
    ToInteger(ArgAt(args, n)).Some?
  }

  /** Position `n` holds an integer, nil, or nothing. */
  predicate IsOptionalAt(args: seq<Arg>, n: nat)
    requires n >= 1
  {
    ArgAt(args, n).Nil? || IsIntegerAt(args, n)
  }

  /** The integer parameters `ps` read from positions `first`, `first + 1`, ...
      in order, as the successive `luaL_check/optinteger` calls do: the first
      argument that is refused raises the error. Values are the Lua integers,
      before they are stored in C variables. */
  function ReadIntegers(args: seq<Arg>, first: nat, ps: seq<Param>): (r: Outcome<seq<int>>)
    requires first >= 1
    ensures r.Ok? ==> |r.value| == |ps|
    ensures r.BadArgument? ==> first <= r.index < first + |ps|
    decreases |ps|
  {
    if ps == [] then Ok([])
    else if !Accepts(ArgAt(args, first), ps[0]) then BadArgument(first)
    else match ReadIntegers(args, first + 1, ps[1..])
      case Ok(vs) => Ok([Value(ArgAt(args, first), ps[0])] + vs)
      case BadArgument(i) => BadArgument(i)
  }

  /** Reading succeeds exactly when every position is accepted, and then
      each value is that position's integer or its default. */
  lemma {:induction false} ReadIntegersOk(args: seq<Arg>, first: nat, ps: seq<Param>)
    requires first >= 1
    ensures ReadIntegers(args, first, ps).Ok?
      <==> forall k :: 0 <= k < |ps| ==> Accepts(ArgAt(args, first + k), ps[k])
    ensures ReadIntegers(args, first, ps).Ok? ==>
      forall k :: 0 <= k < |ps| ==> ReadIntegers(args, first, ps).value[k] == Value(ArgAt(args, first + k), ps[k])
    decreases |ps|
  {
    if ps != [] && Accepts(ArgAt(args, first), ps[0]) {
      ReadIntegersOk(args, first + 1, ps[1..]);
      forall k | 1 <= k < |ps| ensures first + k == (first + 1) + (k - 1) && ps[k] == ps[1..][k - 1] {
      }
    }
  }

  /** A failure names the first refused position. */
  lemma {:induction false} ReadIntegersFails(args: seq<Arg>, first: nat, ps: seq<Param>)
    requires first >= 1
    ensures var r := ReadIntegers(args, first, ps);
      r.BadArgument? ==>
        && first <= r.index < first + |ps|
        && !Accepts(ArgAt(args, r.index), ps[r.index - first])
        && forall k :: first <= k < r.index ==> Accepts(ArgAt(args, k), ps[k - first])
    decreases |ps|
  {
    if ps != [] && Accepts(ArgAt(args, first), ps[0]) {
      ReadIntegersFails(args, first + 1, ps[1..]);
    }
  }

  /** A colour as raylib receives it: four `unsigned char` channels. */
  datatype Color = Color(r: int, g: int, b: int, a: int)

  predicate InRange(c: Color) {
    0 <= c.r <= 255 && 0 <= c.g <= 255 && 0 <= c.b <= 255 && 0 <= c.a <= 255
  }

  const WHITE: Color := Color(255, 255, 255, 255)
  const BLACK: Color := Color(0, 0, 0, 255)

  /** One colour channel: the Lua integer clamped into [0, 255]. */
  function Channel(v: int): (c: int)
    ensures 0 <= c <= 255
    ensures 0 <= v <= 255 ==> c == v
  {
    Clamp(v, 0, 255)
  }

  /** The colour parameters, with the binding's defaults. */
  function ColorParams(d: Color): seq<Param> {
    [Optional(d.r), Optional(d.g), Optional(d.b), Optional(d.a)]
  }

  /** The colour a binding draws with when its channels are read from the
      Lua integers `vs`. */
  function ColorOf(vs: seq<int>): (c: Color)
    requires |vs| == 4
    ensures InRange(c)
  {
    Color(Channel(vs[0]), Channel(vs[1]), Channel(vs[2]), Channel(vs[3]))
  }

  /** The integer a caller passed at position `n`, or `d` if they passed nil or nothing. */
  function IntegerOr(args: seq<Arg>, n: nat, d: int): int
    requires n >= 1
  {
    if IsIntegerAt(args, n) then ToInteger(ArgAt(args, n)).value else d
  }

  /** The integer at a required position (meaningful where `IsIntegerAt` holds). */
  function IntegerAt(args: seq<Arg>, n: nat): int
    requires n >= 1
  {
    IntegerOr(args, n, 0)
  }

  /** The colour the channel arguments from position `first` on select,
      independently of how they are read. */
  function ColorArgs(args: seq<Arg>, first: nat, d: Color): Color
    requires first >= 1
  {
    Color(Channel(IntegerOr(args, first, d.r)), Channel(IntegerOr(args, first + 1, d.g)),
          Channel(IntegerOr(args, first + 2, d.b)), Channel(IntegerOr(args, first + 3, d.a)))
  }

  /** Every channel is in range, and a call that stops before the colour
      arguments draws with the defaults. */
  lemma ColorArgsDefault(args: seq<Arg>, first: nat, d: Color)
    requires first >= 1
    ensures InRange(ColorArgs(args, first, d))
    ensures InRange(d) && |args| < first ==> ColorArgs(args, first, d) == d
  {
  }

  /** Position `n` holds what an integer parameter of kind `p` accepts. */
  predicate AcceptsAt(args: seq<Arg>, n: nat, p: Param)
    requires n >= 1
  {
    Accepts(ArgAt(args, n), p)
  }

  /** A native draw call with its arguments. */
  datatype DrawCall =
    | Rectangle(x: int, y: int, w: int, h: int, color: Color)
    | Circle(x: int, y: int, radius: int, color: Color)
    | Ellipse(x: int, y: int, radiusH: int, radiusV: int, color: Color)
    | Triangle(x1: int, y1: int, x2: int, y2: int, x3: int, y3: int, color: Color)
    | Text(text: string, x: int, y: int, size: int, color: Color)
    | Line(x1: int, y1: int, x2: int, y2: int, color: Color)
    | Background(color: Color)
    | Texture(id: nat, x: int, y: int, color: Color)
    | TextureRec(id: nat, sx: int, sy: int, sw: int, sh: int, dx: int, dy: int, color: Color)

  /** `count` required integers followed by the four colour channels. */
  function ShapeParams(count: nat, d: Color): (ps: seq<Param>)
    ensures |ps| == count + 4
    ensures forall k :: 0 <= k < count ==> ps[k] == Required
  {
    seq(count, _ => Required) + ColorParams(d)
  }

  /** Reading `count` coordinates from position `first` on and then the
      colour: the call is made exactly when every coordinate converts to an
      integer and every channel is an integer or nil; the coordinates are
      those integers, the colour is `ColorArgs`, and an error names the
      first offending position. */
  lemma ShapeArgs(args: seq<Arg>, first: nat, count: nat, d: Color)
    requires first >= 1
    ensures var r := ReadIntegers(args, first, ShapeParams(count, d));
      && (r.Ok? <==> (forall k :: first <= k < first + count ==> IsIntegerAt(args, k))
                     && forall k :: first + count <= k < first + count + 4 ==> IsOptionalAt(args, k))
      && (r.Ok? ==> forall k :: 0 <= k < count ==> r.value[k] == IntegerAt(args, first + k))
      && (r.Ok? ==> ColorOf(r.value[count..]) == ColorArgs(args, first + count, d))
      && (r.BadArgument? ==> first <= r.index < first + count + 4 && !IsIntegerAt(args, r.index))
  {
    var ps := ShapeParams(count, d);
    ReadIntegersOk(args, first, ps);
    ReadIntegersFails(args, first, ps);
    var r := ReadIntegers(args, first, ps);
    forall k | first <= k < first + count + 4
      ensures AcceptsAt(args, k, ps[k - first]) <==> (if k < first + count then IsIntegerAt(args, k) else IsOptionalAt(args, k))
    {
      if k >= first + count {
        assert ps[k - first] == ColorParams(d)[k - first - count];
      }
    }
    if r.Ok? {
      forall k | first <= k < first + count ensures IsIntegerAt(args, k) {
        assert Accepts(ArgAt(args, first + (k - first)), ps[k - first]);
      }
      forall k | first + count <= k < first + count + 4 ensures IsOptionalAt(args, k) {
        assert Accepts(ArgAt(args, first + (k - first)), ps[k - first]);
      }
      forall k | 0 <= k < count ensures r.value[k] == IntegerAt(args, first + k) {
        assert r.value[k] == Value(ArgAt(args, first + k), ps[k]);
      }
      assert ps[count..] == ColorParams(d);
      assert r.value[count] == Value(ArgAt(args, first + count), ps[count]);
      assert r.value[count + 1] == Value(ArgAt(args, first + count + 1), ps[count + 1]);
      assert r.value[count + 2] == Value(ArgAt(args, first + count + 2), ps[count + 2]);
      assert r.value[count + 3] == Value(ArgAt(args, first + count + 3), ps[count + 3]);
    } else {
      var i := r.index;
      assert !AcceptsAt(args, i, ps[i - first]);
      if i < first + count {
        assert !IsIntegerAt(args, i);
      } else {
        assert !IsOptionalAt(args, i);
      }
    }
  }

  // ------------------------------------------------------------- bindings

  /** `l_draw_rectangle(x, y, w, h [, r, g, b, a])`, white by default. */
  function DrawRectangle(args: seq<Arg>): (r: Outcome<DrawCall>)
    ensures r.Ok? ==> (r.value == Rectangle(CInt(IntegerAt(args, 1)), CInt(IntegerAt(args, 2)), CInt(IntegerAt(args, 3)), CInt(IntegerAt(args, 4)),
                          ColorArgs(args, 5, WHITE)))
    ensures r.BadArgument? ==> 1 <= r.index <= 8 && !IsIntegerAt(args, r.index)
  {
    ShapeArgs(args, 1, 4, WHITE);
    match ReadIntegers(args, 1, ShapeParams(4, WHITE))
    case Ok(v) => Ok(Rectangle(CInt(v[0]), CInt(v[1]), CInt(v[2]), CInt(v[3]), ColorOf(v[4..])))
    case BadArgument(i) => BadArgument(i)
  }

  /** `l_draw_circle(x, y, radius [, r, g, b, a])`, white by default. */
  function DrawCircle(args: seq<Arg>): (r: Outcome<DrawCall>)
    ensures r.Ok? ==> (r.value == Circle(CInt(IntegerAt(args, 1)), CInt(IntegerAt(args, 2)), CInt(IntegerAt(args, 3)), ColorArgs(args, 4, WHITE)))
    ensures r.BadArgument? ==> 1 <= r.index <= 7 && !IsIntegerAt(args, r.index)
  {
    ShapeArgs(args, 1, 3, WHITE);
    match ReadIntegers(args, 1, ShapeParams(3, WHITE))
    case Ok(v) => Ok(Circle(CInt(v[0]), CInt(v[1]), CInt(v[2]), ColorOf(v[3..])))
    case BadArgument(i) => BadArgument(i)
  }

  /** `l_draw_ellipse(x, y, radiusH, radiusV [, r, g, b, a])`, white by default. */
  function DrawEllipse(args: seq<Arg>): (r: Outcome<DrawCall>)
    ensures r.Ok? ==> (r.value == Ellipse(CInt(IntegerAt(args, 1)), CInt(IntegerAt(args, 2)), CInt(IntegerAt(args, 3)), CInt(IntegerAt(args, 4)),
                        ColorArgs(args, 5, WHITE)))
    ensures r.BadArgument? ==> 1 <= r.index <= 8 && !IsIntegerAt(args, r.index)
  {
    ShapeArgs(args, 1, 4, WHITE);
    match ReadIntegers(args, 1, ShapeParams(4, WHITE))
    case Ok(v) => Ok(Ellipse(CInt(v[0]), CInt(v[1]), CInt(v[2]), CInt(v[3]), ColorOf(v[4..])))
    case BadArgument(i) => BadArgument(i)
  }

  /** `l_draw_triangle(x1, y1, x2, y2, x3, y3 [, r, g, b, a])`, white by default. */
  function DrawTriangle(args: seq<Arg>): (r: Outcome<DrawCall>)
    ensures r.Ok? ==> (r.value == Triangle(CInt(IntegerAt(args, 1)), CInt(IntegerAt(args, 2)), CInt(IntegerAt(args, 3)),
                         CInt(IntegerAt(args, 4)), CInt(IntegerAt(args, 5)), CInt(IntegerAt(args, 6)), ColorArgs(args, 7, WHITE)))
    ensures r.BadArgument? ==> 1 <= r.index <= 10 && !IsIntegerAt(args, r.index)
  {
    ShapeArgs(args, 1, 6, WHITE);
    match ReadIntegers(args, 1, ShapeParams(6, WHITE))
    case Ok(v) => Ok(Triangle(CInt(v[0]), CInt(v[1]), CInt(v[2]), CInt(v[3]), CInt(v[4]), CInt(v[5]), ColorOf(v[6..])))
    case BadArgument(i) => BadArgument(i)
  }

  /** `l_draw_line(x1, y1, x2, y2 [, r, g, b, a])`, opaque black by default. */
  function DrawLine(args: seq<Arg>): (r: Outcome<DrawCall>)
    ensures r.Ok? ==> (r.value == Line(CInt(IntegerAt(args, 1)), CInt(IntegerAt(args, 2)), CInt(IntegerAt(args, 3)), CInt(IntegerAt(args, 4)),
                     ColorArgs(args, 5, BLACK)))
    ensures r.BadArgument? ==> 1 <= r.index <= 8 && !IsIntegerAt(args, r.index)
  {
    ShapeArgs(args, 1, 4, BLACK);
    match ReadIntegers(args, 1, ShapeParams(4, BLACK))
    case Ok(v) => Ok(Line(CInt(v[0]), CInt(v[1]), CInt(v[2]), CInt(v[3]), ColorOf(v[4..])))
    case BadArgument(i) => BadArgument(i)
  }

  /** `l_draw_background([r, g, b, a])`, white by default. */
  function DrawBackground(args: seq<Arg>): (r: Outcome<DrawCall>)
    ensures r.Ok? ==> (r.value == Background(ColorArgs(args, 1, WHITE)))
    ensures r.BadArgument? ==> 1 <= r.index <= 4 && !IsIntegerAt(args, r.index)
  {
    ShapeArgs(args, 1, 0, WHITE);
    match ReadIntegers(args, 1, ShapeParams(0, WHITE))
    case Ok(v) => Ok(Background(ColorOf(v)))
    case BadArgument(i) => BadArgument(i)
  }

  /** The integer parameters of the text bindings after the string:
      x, y, then size 20 and opaque black by default. */
  function TextParams(): (ps: seq<Param>)
    ensures |ps| == 7
  {
    [Required, Required, Optional(20)] + ColorParams(BLACK)
  }

  /** `l_draw_text(text, x, y [, size, r, g, b, a])`. */
  function DrawText(args: seq<Arg>): (r: Outcome<DrawCall>)
    ensures r.Ok? ==> CheckString(args, 1).Ok?
    ensures r.Ok? ==> (r.value == Text(CheckString(args, 1).value, CInt(IntegerAt(args, 2)), CInt(IntegerAt(args, 3)),
                                       CInt(IntegerOr(args, 4, 20)), ColorArgs(args, 5, BLACK)))
    ensures r.BadArgument? ==> 1 <= r.index <= 8
    ensures r.BadArgument? && r.index > 1 ==> !IsIntegerAt(args, r.index)
  {
    TextIntegers(args);
    match CheckString(args, 1)
    case BadArgument(i) => BadArgument(i)
    case Ok(text) =>
      match ReadIntegers(args, 2, TextParams())
      case Ok(v) => Ok(Text(text, CInt(v[0]), CInt(v[1]), CInt(v[2]), ColorOf(v[3..])))
      case BadArgument(i) => BadArgument(i)
  }

  /** C's `/`, which truncates toward zero. */
  function CDiv(a: int, b: int): (q: int)
    requires b > 0
    ensures a >= 0 ==> q == a / b
    ensures a < 0 ==> q == -((-a) / b)
  {
    if a >= 0 then a / b else -((-a) / b)
  }

  /** `l_draw_text_centered`: as `l_draw_text`, with `x` moved left by half
      the width `measure` (raylib's `MeasureText`) reports. */
  function DrawTextCentered(args: seq<Arg>, measure: (string, int) -> int): (r: Outcome<DrawCall>)
    ensures r.Ok? ==> CheckString(args, 1).Ok?
    ensures r.Ok? ==>
      var size := CInt(IntegerOr(args, 4, 20));
      r.value == Text(CheckString(args, 1).value,
                      CInt(IntegerAt(args, 2)) - CDiv(measure(CheckString(args, 1).value, size), 2),
                      CInt(IntegerAt(args, 3)), size, ColorArgs(args, 5, BLACK))
    ensures r.BadArgument? ==> 1 <= r.index <= 8
    ensures r.BadArgument? && r.index > 1 ==> !IsIntegerAt(args, r.index)
  {
    TextIntegers(args);
    match CheckString(args, 1)
    case BadArgument(i) => BadArgument(i)
    case Ok(text) =>
      match ReadIntegers(args, 2, TextParams())
      case Ok(v) =>
        var size := CInt(v[2]);
        Ok(Text(text, CInt(v[0]) - CDiv(measure(text, size), 2), CInt(v[1]), size, ColorOf(v[3..])))
      case BadArgument(i) => BadArgument(i)
  }

  // ------------------------------------------ what every binding promises

  /** `l_draw_rectangle` draws exactly when x, y, w, h convert to integers
      and each channel is an integer or nil. */
  lemma RectangleArgs(args: seq<Arg>)
    ensures DrawRectangle(args).Ok? <==>
      (forall k :: 1 <= k <= 4 ==> IsIntegerAt(args, k)) && (forall k :: 5 <= k <= 8 ==> IsOptionalAt(args, k))
  {
    ShapeArgs(args, 1, 4, WHITE);
  }

  /** The same for `l_draw_circle`, whose colour starts at argument 4. */
  lemma CircleArgs(args: seq<Arg>)
    ensures DrawCircle(args).Ok? <==>
      (forall k :: 1 <= k <= 3 ==> IsIntegerAt(args, k)) && (forall k :: 4 <= k <= 7 ==> IsOptionalAt(args, k))
  {
    ShapeArgs(args, 1, 3, WHITE);
  }

  /** The same for `l_draw_ellipse`. */
  lemma EllipseArgs(args: seq<Arg>)
    ensures DrawEllipse(args).Ok? <==>
      (forall k :: 1 <= k <= 4 ==> IsIntegerAt(args, k)) && (forall k :: 5 <= k <= 8 ==> IsOptionalAt(args, k))
  {
    ShapeArgs(args, 1, 4, WHITE);
  }

  /** The same for `l_draw_triangle`, whose colour starts at argument 7. */
  lemma TriangleArgs(args: seq<Arg>)
    ensures DrawTriangle(args).Ok? <==>
      (forall k :: 1 <= k <= 6 ==> IsIntegerAt(args, k)) && (forall k :: 7 <= k <= 10 ==> IsOptionalAt(args, k))
  {
    ShapeArgs(args, 1, 6, WHITE);
  }

  /** The same for `l_draw_line`, which draws opaque black by default. */
  lemma LineArgs(args: seq<Arg>)
    ensures DrawLine(args).Ok? <==>
      (forall k :: 1 <= k <= 4 ==> IsIntegerAt(args, k)) && (forall k :: 5 <= k <= 8 ==> IsOptionalAt(args, k))
  {
    ShapeArgs(args, 1, 4, BLACK);
  }

  /** `l_draw_background` takes only the four channels, white by default. */
  lemma BackgroundArgs(args: seq<Arg>)
    ensures DrawBackground(args).Ok? <==> forall k :: 1 <= k <= 4 ==> IsOptionalAt(args, k)
  {
    ShapeArgs(args, 1, 0, WHITE);
  }

  /** The integer parameters after the text: x and y, the size (20 by
      default) and the colour at positions 5 to 8 (opaque black by default). */
  lemma TextIntegers(args: seq<Arg>)
    ensures var r := ReadIntegers(args, 2, TextParams());
      && (r.Ok? <==> IsIntegerAt(args, 2) && IsIntegerAt(args, 3) && forall k :: 4 <= k <= 8 ==> IsOptionalAt(args, k))
      && (r.Ok? ==> r.value[0] == IntegerAt(args, 2) && r.value[1] == IntegerAt(args, 3) && r.value[2] == IntegerOr(args, 4, 20))
      && (r.Ok? ==> ColorOf(r.value[3..]) == ColorArgs(args, 5, BLACK))
      && (r.BadArgument? ==> !IsIntegerAt(args, r.index))
  {
    var ps := TextParams();
    ReadIntegersOk(args, 2, ps);
    ReadIntegersFails(args, 2, ps);
    var r := ReadIntegers(args, 2, ps);
    assert ps[0] == Required && ps[1] == Required && ps[2] == Optional(20);
    assert ps[3] == Optional(0) && ps[4] == Optional(0) && ps[5] == Optional(0) && ps[6] == Optional(255);
    if r.Ok? {
      assert forall k :: 0 <= k < 7 ==> Accepts(ArgAt(args, 2 + k), ps[k]);
      assert Accepts(ArgAt(args, 2), ps[0]) && Accepts(ArgAt(args, 3), ps[1]) && Accepts(ArgAt(args, 4), ps[2]);
      assert Accepts(ArgAt(args, 5), ps[3]) && Accepts(ArgAt(args, 6), ps[4]) && Accepts(ArgAt(args, 7), ps[5]);
      assert Accepts(ArgAt(args, 8), ps[6]);
      assert r.value[3..] == [r.value[3], r.value[4], r.value[5], r.value[6]];
      assert r.value[0] == Value(ArgAt(args, 2), ps[0]);
      assert r.value[1] == Value(ArgAt(args, 3), ps[1]);
      assert r.value[2] == Value(ArgAt(args, 4), ps[2]);
      assert r.value[3] == Value(ArgAt(args, 5), ps[3]);
      assert r.value[4] == Value(ArgAt(args, 6), ps[4]);
      assert r.value[5] == Value(ArgAt(args, 7), ps[5]);
      assert r.value[6] == Value(ArgAt(args, 8), ps[6]);
    } else {
      var i := r.index;
      assert !Accepts(ArgAt(args, i), ps[i - 2]);
      if i <= 3 {
        assert !IsIntegerAt(args, i);
      } else {
        assert !IsOptionalAt(args, i);
      }
    }
  }

  /** `l_draw_text` draws exactly when the text is a string or number, x and
      y convert to integers and the rest are integers or nil; a string is
      drawn as given. */
  lemma TextArgs(args: seq<Arg>)
    ensures DrawText(args).Ok? <==>
      (ArgAt(args, 1).Str? || ArgAt(args, 1).Integer?) && IsIntegerAt(args, 2) && IsIntegerAt(args, 3) &&
      (forall k :: 4 <= k <= 8 ==> IsOptionalAt(args, k))
    ensures ArgAt(args, 1).Str? && DrawText(args).Ok? ==> DrawText(args).value.text == ArgAt(args, 1).s
  {
    TextIntegers(args);
  }

  /** `l_draw_text_centered` reads its arguments as `l_draw_text` does and
      draws the same text, size and colour, half the measured width further left. */
  lemma TextCenteredArgs(args: seq<Arg>, measure: (string, int) -> int)
    ensures DrawTextCentered(args, measure).Ok? <==> DrawText(args).Ok?
    ensures DrawText(args).BadArgument? ==> DrawTextCentered(args, measure) == DrawText(args)
    ensures DrawText(args).Ok? ==>
      var t := DrawText(args).value;
      DrawTextCentered(args, measure) == Ok(Text(t.text, t.x - CDiv(measure(t.text, t.size), 2), t.y, t.size, t.color))
  {
  }

  /** A call with only the required arguments draws with the default colour. */
  lemma DefaultColors(args: seq<Arg>)
    ensures |args| <= 4 && DrawRectangle(args).Ok? ==> DrawRectangle(args).value.color == WHITE
    ensures |args| <= 3 && DrawCircle(args).Ok? ==> DrawCircle(args).value.color == WHITE
    ensures |args| <= 6 && DrawTriangle(args).Ok? ==> DrawTriangle(args).value.color == WHITE
    ensures args == [] ==> DrawBackground(args) == Ok(Background(WHITE))
    ensures |args| <= 4 && DrawLine(args).Ok? ==> DrawLine(args).value.color == BLACK
    ensures |args| <= 4 && DrawText(args).Ok? ==> DrawText(args).value.color == BLACK
  {
    RectangleArgs(args);
    CircleArgs(args);
    TriangleArgs(args);
    LineArgs(args);
    TextArgs(args);
    ColorArgsDefault(args, 5, WHITE);
    ColorArgsDefault(args, 4, WHITE);
    ColorArgsDefault(args, 7, WHITE);
    ColorArgsDefault(args, 1, WHITE);
    ColorArgsDefault(args, 5, BLACK);
    ShapeArgs(args, 1, 0, WHITE);
  }

  // ------------------------------------------- the channels as written

  /** What the source hands raylib for one channel: the `lua_Integer` is
      first stored in an `int`, and only that `int` is clamped. */
  function ChannelAsWritten(v: int): (c: int)
    ensures 0 <= c <= 255
    ensures INT_MIN <= v <= INT_MAX ==> c == Channel(v)
  {
    Clamp(CInt(v), 0, 255)
  }

  /** A channel of 2^32 wraps to 0 in the `int` and is drawn as 0, where
      clamping the Lua integer gives 255; 2^32 + 5 even draws as 5. */
  lemma NarrowingDefeatsClamp()
    ensures ChannelAsWritten(0x1_0000_0000) == 0 && Channel(0x1_0000_0000) == 255
    ensures ChannelAsWritten(0x1_0000_0005) == 5 && Channel(0x1_0000_0005) == 255
  {
  }
}
