/** The C library behaviour the parsers rely on, stated over `string`
    (a C string is modelled by the characters before its terminating NUL):
    `isspace`/`tolower` in the "C" locale, `strncmp` prefix tests, `strncpy`
    into a fixed buffer, `atoi`, and how `fgets` cuts a file into chunks. */
module CString {

  datatype Option<+T> = None | Some(value: T)

  /** `isspace` in the "C" locale: space, \t, \n, \v, \f, \r. */
  predicate IsSpace(c: char) {
    c == ' ' || c == '\t' || c == '\n' || c == '\U{B}' || c == '\U{C}' || c == '\r'
  }

  predicate IsDigit(c: char) {
    '0' <= c <= '9'
  }

  /** `strncmp(s, p, |p|) == 0` for a literal `p` without NUL: `s` starts with `p`. */
  predicate HasPrefix(s: string, p: string) {
    |p| <= |s| && s[..|p|] == p
  }

  function Min(a: int, b: int): int {
    if a <= b then a else b
  }

  /** The characters a bounded copy of at most `room` characters keeps:
      `strncpy(dst, src, n - 1); dst[n - 1] = '\0'` into an `n`-byte
      buffer keeps `n - 1`, and `strncpy(dst, src, n)` keeps `n`, then
      without a terminator when the text is that long. */
  function Truncate(s: string, room: nat): (r: string)
    ensures |r| <= room && |r| == Min(|s|, room)
    ensures |s| <= room ==> r == s
    ensures r == s[..|r|]
  {
    if |s| <= room then s else s[..room]
  }

  /** `tolower` in the "C" locale: only 'A'..'Z' change. */
  function ToLower(c: char): (d: char)
    ensures 'A' <= c <= 'Z' ==> d as int == c as int + 32
    ensures !('A' <= c <= 'Z') ==> d == c
  {
    if 'A' <= c <= 'Z' then (c as int + 32) as char else c
  }

  /** The key buffer after `tolower` has run over every character. */
  function Lower(s: string): (r: string)
    ensures |r| == |s|
    ensures forall i :: 0 <= i < |s| ==> r[i] == ToLower(s[i])
  {
    seq(|s|, i requires 0 <= i < |s| => ToLower(s[i]))
  }

  /** `strchr(s + i, c)` for a character other than NUL: the first index
      from `i` on that holds `c`. */
  function Find(s: string, c: char, i: nat): (r: Option<nat>)
    requires i <= |s|
    ensures r.Some? ==> i <= r.value < |s| && s[r.value] == c
    decreases |s| - i
  {
    if i == |s| then None
    else if s[i] == c then Some(i)
    else Find(s, c, i + 1)
  }

  /** Nothing before the index `Find` returns holds `c`, and `None` means
      nothing from `i` on does. */
  lemma {:induction false} FindFirst(s: string, c: char, i: nat)
    requires i <= |s|
    ensures Find(s, c, i).Some? ==> forall k :: i <= k < Find(s, c, i).value ==> s[k] != c
    ensures Find(s, c, i).None? ==> forall k :: i <= k < |s| ==> s[k] != c
    decreases |s| - i
  {
    if i < |s| && s[i] != c {
      FindFirst(s, c, i + 1);
    }
  }

  /** The scan stops at the first `c`. */
  lemma {:induction false} FindAt(s: string, c: char, i: nat, e: nat)
    requires i <= e < |s| && s[e] == c
    requires forall k :: i <= k < e ==> s[k] != c
    ensures Find(s, c, i) == Some(e)
    decreases e - i
  {
    if i < e {
      FindAt(s, c, i + 1, e);
    }
  }

  /** Index of the first non-white-space character at or after `i`. */
  function SkipSpace(s: string, i: nat): (n: nat)
    requires i <= |s|
    ensures i <= n <= |s|
    ensures n < |s| ==> !IsSpace(s[n])
    decreases |s| - i
  {
    if i < |s| && IsSpace(s[i]) then SkipSpace(s, i + 1) else i
  }

  lemma {:induction false} SkipSpaceSkips(s: string, i: nat)
    requires i <= |s|
    ensures forall k :: i <= k < SkipSpace(s, i) ==> IsSpace(s[k])
    decreases |s| - i
  {
    if i < |s| && IsSpace(s[i]) {
      SkipSpaceSkips(s, i + 1);
    }
  }

  /** The scan stops at the first non-white-space character. */
  lemma {:induction false} SkipSpaceAt(s: string, i: nat, n: nat)
    requires i <= n <= |s| && (n < |s| ==> !IsSpace(s[n]))
    requires forall k :: i <= k < n ==> IsSpace(s[k])
    ensures SkipSpace(s, i) == n
    decreases n - i
  {
    if i < n {
      SkipSpaceAt(s, i + 1, n);
    }
  }

  /** Where `s[i..j]` ends once its trailing white space is dropped. */
  function BackOverSpace(s: string, i: nat, j: nat): (n: nat)
    requires i <= j <= |s|
    ensures i <= n <= j
    ensures n > i ==> !IsSpace(s[n - 1])
    decreases j
  {
    if j > i && IsSpace(s[j - 1]) then BackOverSpace(s, i, j - 1) else j
  }

  lemma {:induction false} BackOverSpaceSkips(s: string, i: nat, j: nat)
    requires i <= j <= |s|
    ensures forall k :: BackOverSpace(s, i, j) <= k < j ==> IsSpace(s[k])
    decreases j
  {
    if j > i && IsSpace(s[j - 1]) {
      BackOverSpaceSkips(s, i, j - 1);
    }
  }

  /** The backward scan stops after the last non-white-space character. */
  lemma {:induction false} BackOverSpaceAt(s: string, i: nat, n: nat, j: nat)
    requires i <= n <= j <= |s| && (n > i ==> !IsSpace(s[n - 1]))
    requires forall k :: n <= k < j ==> IsSpace(s[k])
    ensures BackOverSpace(s, i, j) == n
    decreases j
  {
    if n < j {
      BackOverSpaceAt(s, i, n, j - 1);
    }
  }

  // ---------------------------------------------------------------- atoi

  /** End of the run of decimal digits starting at `i`. */
  function DigitsEnd(s: string, i: nat): (n: nat)
    requires i <= |s|
    ensures i <= n <= |s|
    ensures n < |s| ==> !IsDigit(s[n])
    decreases |s| - i
  {
    if i < |s| && IsDigit(s[i]) then DigitsEnd(s, i + 1) else i
  }

  function DigitValue(c: char): int {
    c as int - '0' as int
  }

  /** Value of a digit string read from the left, most significant digit first. */
  function DigitsValue(ds: string): int
    decreases |ds|
  {
    if ds == [] then 0 else DigitsValue(ds[..|ds| - 1]) * 10 + DigitValue(ds[|ds| - 1])
  }

  /** The numeral `strtol` and `atoi` read, as an unbounded integer: skip
      white space, an optional sign, then the longest run of decimal digits;
      anything else ends the number. */
  function NumeralValue(s: string): int {
    var i := SkipSpace(s, 0);
    if i < |s| && (s[i] == '-' || s[i] == '+') then
      var v := DigitsValue(s[i + 1..DigitsEnd(s, i + 1)]);
      if s[i] == '-' then -v else v
    else
      DigitsValue(s[i..DigitsEnd(s, i)])
  }

  const INT_MIN: int := -0x8000_0000
  const INT_MAX: int := 0x7fff_ffff
  /** The range of a 64-bit `long` (and of a `lua_Integer`). */
  const LONG_MIN: int := -0x8000_0000_0000_0000
  const LONG_MAX: int := 0x7fff_ffff_ffff_ffff

  /** Storing a wider integer in a C `int`: two's-complement wrap-around. */
  function CInt(v: int): (r: int)
    ensures INT_MIN <= r <= INT_MAX
    ensures INT_MIN <= v <= INT_MAX ==> r == v
    ensures (r - v) % 0x1_0000_0000 == 0
  {
    var m := v % 0x1_0000_0000;
    if m > INT_MAX then m - 0x1_0000_0000 else m
  }

  /** `strtol(s, NULL, 10)` with a 64-bit `long`: the numeral's value,
      saturated at `LONG_MIN` and `LONG_MAX` when it does not fit. */
  function Strtol(s: string): (r: int)
    ensures LONG_MIN <= r <= LONG_MAX
    ensures LONG_MIN <= NumeralValue(s) <= LONG_MAX ==> r == NumeralValue(s)
    ensures NumeralValue(s) > LONG_MAX ==> r == LONG_MAX
    ensures NumeralValue(s) < LONG_MIN ==> r == LONG_MIN
  {
    var v := NumeralValue(s);
    if v > LONG_MAX then LONG_MAX else if v < LONG_MIN then LONG_MIN else v
  }

  /** glibc's `atoi`, which is `(int) strtol(s, NULL, 10)`: an `int`, equal
      to the numeral when the numeral fits one. */
  function Atoi(s: string): (r: int)
    ensures INT_MIN <= r <= INT_MAX
    ensures INT_MIN <= NumeralValue(s) <= INT_MAX ==> r == NumeralValue(s)
  {
    CInt(Strtol(s))
  }

  function DigitChar(d: int): (c: char)
    requires 0 <= d < 10
    ensures IsDigit(c) && DigitValue(c) == d
  {
    ('0' as int + d) as char
  }

  /** Decimal rendering of a natural number, the inverse of `Atoi`. */
  function Decimal(n: nat): (s: string)
    ensures s != []
    ensures forall i :: 0 <= i < |s| ==> IsDigit(s[i])
  {
    if n < 10 then [DigitChar(n)] else Decimal(n / 10) + [DigitChar(n % 10)]
  }

  lemma {:induction false} DecimalValue(n: nat)
    ensures DigitsValue(Decimal(n)) == n
  {
    if n >= 10 {
      var s := Decimal(n);
      assert s[..|s| - 1] == Decimal(n / 10);
      DecimalValue(n / 10);
    }
  }

  lemma {:induction false} AllDigitsRun(s: string, i: nat)
    requires i <= |s|
    requires forall k :: i <= k < |s| ==> IsDigit(s[k])
    ensures DigitsEnd(s, i) == |s|
    decreases |s| - i
  {
    if i < |s| {
      AllDigitsRun(s, i + 1);
    }
  }

  /** `atoi` reads back what `Decimal` printed when it fits an `int`; a
      larger number is saturated to a `long` and wrapped into an `int`. */
  lemma AtoiDecimal(n: nat)
    ensures n <= INT_MAX ==> Atoi(Decimal(n)) == n
    ensures Atoi(Decimal(n)) == CInt(if n <= LONG_MAX then n else LONG_MAX)
  {
    var s := Decimal(n);
    DecimalValue(n);
    AllDigitsRun(s, 0);
    assert SkipSpace(s, 0) == 0 by { assert !IsSpace(s[0]); }
    assert s[0..|s|] == s;
    assert NumeralValue(s) == n;
  }

  /** ... and the same with a minus sign in front. */
  lemma AtoiNegativeDecimal(n: nat)
    ensures n <= -INT_MIN ==> Atoi("-" + Decimal(n)) == -(n as int)
    ensures Atoi("-" + Decimal(n)) == CInt(if n <= -LONG_MIN then -(n as int) else LONG_MIN)
  {
    var s := Decimal(n);
    DecimalValue(n);
    var m := "-" + s;
    assert SkipSpace(m, 0) == 0 by { assert !IsSpace(m[0]); }
    assert m[1..|m|] == s;
    AllDigitsRun(m, 1);
    assert NumeralValue(m) == -(n as int);
  }

  // ---------------------------------------------------------------- fgets

  /** Length of the chunk `fgets(buf, size, f)` returns when `text` remains:
      up to and including the first '\n', at most `size - 1` characters. */
  function ChunkLength(text: string, room: nat): (n: nat)
    ensures n <= |text| && n <= room
    ensures text != [] && room > 0 ==> n > 0
  {
    if text == [] || room == 0 then 0
    else if text[0] == '\n' then 1
    else 1 + ChunkLength(text[1..], room - 1)
  }

  /** The chunk one `fgets` call with a `size`-byte buffer returns. */
  function Fgets(text: string, size: nat): (chunk: string)
    requires size >= 2
    ensures text != [] ==> chunk != []
    ensures |chunk| <= size - 1 && |chunk| <= |text|
  {
    text[..ChunkLength(text, size - 1)]
  }

  lemma {:induction false} ChunkLengthStops(text: string, room: nat)
    ensures var n := ChunkLength(text, room);
      (forall i :: 0 <= i < n - 1 ==> text[i] != '\n')
      && (0 < n < |text| ==> text[n - 1] == '\n' || n == room)
  {
    if text != [] && room > 0 && text[0] != '\n' {
      ChunkLengthStops(text[1..], room - 1);
    }
  }

  /** What `fgets` promises: the chunk is the start of the remaining text,
      holds no '\n' except as its last character, and stops early only after
      a '\n' or when the buffer is full. */
  lemma FgetsChunk(text: string, size: nat)
    requires size >= 2
    ensures var c := Fgets(text, size);
      && c == text[..|c|]
      && (forall i :: 0 <= i < |c| - 1 ==> c[i] != '\n')
      && (0 < |c| < |text| ==> c[|c| - 1] == '\n' || |c| == size - 1)
  {
    ChunkLengthStops(text, size - 1);
  }

  /** The successive non-NULL results of `while (fgets(line, size, f))`. */
  function Chunks(text: string, size: nat): (lines: seq<string>)
    requires size >= 2
    decreases |text|
  {
    if text == [] then [] else
      var c := Fgets(text, size);
      [c] + Chunks(text[|c|..], size)
  }

  /** Reading on from `pos`: the next chunk is what `fgets` returns there,
      and the chunks after it start where it ends. */
  lemma ChunksNext(text: string, pos: nat, size: nat, rest: seq<string>)
    requires size >= 2 && pos < |text| && rest == Chunks(text[pos..], size)
    ensures rest != [] && rest[0] == Fgets(text[pos..], size)
    ensures rest[1..] == Chunks(text[pos + |rest[0]|..], size)
  {
    var c := Fgets(text[pos..], size);
    assert text[pos..][|c|..] == text[pos + |c|..];
  }

  function Concat(lines: seq<string>): string {
    if lines == [] then [] else lines[0] + Concat(lines[1..])
  }

  /** Reading a file chunk by chunk loses and invents nothing. */
  lemma {:induction false} ChunksCoverText(text: string, size: nat)
    requires size >= 2
    ensures Concat(Chunks(text, size)) == text
    decreases |text|
  {
    if text != [] {
      var c := Fgets(text, size);
      var rest := Chunks(text[|c|..], size);
      ChunksCoverText(text[|c|..], size);
      assert ([c] + rest)[1..] == rest;
      assert c + text[|c|..] == text;
    }
  }

  /** No chunk is empty and none overflows the buffer. */
  lemma {:induction false} ChunksFitBuffer(text: string, size: nat)
    requires size >= 2
    ensures forall line :: line in Chunks(text, size) ==> 0 < |line| <= size - 1
    decreases |text|
  {
    if text != [] {
      var c := Fgets(text, size);
      ChunksFitBuffer(text[|c|..], size);
    }
  }

  /** The number of characters in the first `n` chunks. */
  function Offset(lines: seq<string>, n: nat): nat
    requires n <= |lines|
  {
    if n == 0 then 0 else Offset(lines, n - 1) + |lines[n - 1]|
  }

  /** The file position after `n` calls of `fgets`: `pos` characters are
      consumed, and the chunks still to come are `lines[n..]`. */
  ghost predicate ReadUpTo(text: string, size: nat, lines: seq<string>, n: nat, pos: nat) {
    size >= 2 && n <= |lines| && pos <= |text| && pos == Offset(lines, n)
    && Chunks(text[pos..], size) == lines[n..]
  }

  /** One `fgets(line, size, f)` call with text left in the file: it
      returns the next chunk and moves the file position past it. */
  method ReadChunk(text: string, pos: nat, size: nat, ghost lines: seq<string>, ghost n: nat) returns (line: string)
    requires pos < |text| && ReadUpTo(text, size, lines, n, pos)
    ensures n < |lines| && line == lines[n]
    ensures ReadUpTo(text, size, lines, n + 1, pos + |line|)
  {
    line := Fgets(text[pos..], size);
    ChunksNext(text, pos, size, lines[n..]);
    assert lines[n..][1..] == lines[n + 1..];
  }
}
