/** The `.aphdat` configuration loader of the Aphelion host: a text file of
    `key = value` lines with `#` comments and case-insensitive keys, applied
    field by field on top of the defaults. */
module AphConfig {
  import opened CString

  const VERSION := "alpha6"

  // raylib key codes that `exit_key` accepts by name
  const KEY_SPACE := 32
  const KEY_ESCAPE := 256
  const KEY_ENTER := 257
  const KEY_BACKSPACE := 259
  const KEY_DELETE := 261

  // room in the APHConfig string buffers, terminator excluded
  const TITLE_ROOM := 255
  const AUTHOR_ROOM := 255
  const API_VERSION_ROOM := 31
  const SCRIPT_ROOM := 511

  // buffers of the loader: the fgets line and the parsed key and value
  const LINE_BUFFER := 1024
  const KEY_BUFFER := 256
  const VALUE_BUFFER := 768

  datatype Config = Config(
    title: string, author: string, width: int, height: int, fps: int,
    apiVersion: string, script: string, exitKey: int,
    fullscreen: bool, resizable: bool, vsync: bool)

  /** What every loaded configuration satisfies: a positive window size and
      frame rate, and every string within its buffer. */
  predicate Wellformed(c: Config) {
    && c.width > 0 && c.height > 0 && c.fps > 0
    && |c.title| <= TITLE_ROOM && |c.author| <= AUTHOR_ROOM
    && |c.apiVersion| <= API_VERSION_ROOM && |c.script| <= SCRIPT_ROOM
  }

  /** `aph_config_defaults`. */
  function Defaults(): (c: Config)
    ensures Wellformed(c)
    ensures c.script == [] && c.apiVersion == VERSION && c.exitKey == KEY_DELETE
  {
    Config("Aphelion Game", "Unknown", 1280, 960, 60, VERSION, "", KEY_DELETE, false, true, true)
  }

  // ------------------------------------------------------------ trimming

  /** No white space at either end. */
  predicate Trimmed(s: string) {
    s == [] || (!IsSpace(s[0]) && !IsSpace(s[|s| - 1]))
  }

  /** `s` without white space at either end. */
  function Trim(s: string): (r: string)
    ensures |r| <= |s|
  {
    var i := SkipSpace(s, 0);
    s[i..BackOverSpace(s, i, |s|)]
  }

  lemma TrimmedTrim(s: string)
    ensures Trimmed(Trim(s))
  {
    var i := SkipSpace(s, 0);
    var j := BackOverSpace(s, i, |s|);
    var t := Trim(s);
    if i < j {
      assert t[0] == s[i] && t[|t| - 1] == s[j - 1];
    }
  }

  /** Trimming finds the text between any white-space padding: if `s[i..j]`
      is trimmed and everything outside it is white space, `Trim(s)` is it. */
  lemma TrimAt(s: string, i: nat, j: nat)
    requires i <= j <= |s|
    requires forall k :: 0 <= k < i ==> IsSpace(s[k])
    requires forall k :: j <= k < |s| ==> IsSpace(s[k])
    requires i < j ==> !IsSpace(s[i]) && !IsSpace(s[j - 1])
    ensures Trim(s) == s[i..j]
  {
    if i == j {
      SkipSpaceAt(s, 0, |s|);
    } else {
      SkipSpaceAt(s, 0, i);
      BackOverSpaceAt(s, i, j, |s|);
    }
  }

  /** A trimmed text is its own trimmed form. */
  lemma TrimTrimmed(s: string)
    requires Trimmed(s)
    ensures Trim(s) == s
  {
    TrimAt(s, 0, |s|);
    assert s[0..|s|] == s;
  }

  /** `TrimAt` for the slice `s[lo..hi]`. */
  lemma TrimSlice(s: string, lo: nat, i: nat, j: nat, hi: nat)
    requires lo <= i <= j <= hi <= |s|
    requires forall k :: lo <= k < i ==> IsSpace(s[k])
    requires forall k :: j <= k < hi ==> IsSpace(s[k])
    requires i < j ==> !IsSpace(s[i]) && !IsSpace(s[j - 1])
    ensures Trim(s[lo..hi]) == s[i..j]
  {
    var t := s[lo..hi];
    TrimAt(t, i - lo, j - lo);
    assert t[i - lo..j - lo] == s[i..j] by {
      forall k | 0 <= k < j - i ensures t[i - lo..j - lo][k] == s[i..j][k] {
        assert t[i - lo + k] == s[i + k];
      }
    }
  }

  /** `TrimAt` for the suffix `s[lo..]`. */
  lemma TrimSuffix(s: string, lo: nat, i: nat, j: nat)
    requires lo <= i <= j <= |s|
    requires forall k :: lo <= k < i ==> IsSpace(s[k])
    requires forall k :: j <= k < |s| ==> IsSpace(s[k])
    requires i < j ==> !IsSpace(s[i]) && !IsSpace(s[j - 1])
    ensures Trim(s[lo..]) == s[i..j]
  {
    assert s[lo..] == s[lo..|s|];
    TrimSlice(s, lo, i, j, |s|);
  }

  /** `trim_inplace`: step the start pointer over leading white space, then
      the end pointer back over trailing white space. */
  method TrimInPlace(s: string) returns (t: string)
    ensures t == Trim(s)
  {
    var start := 0;
    while start < |s| && IsSpace(s[start])
      invariant start <= |s|
      invariant forall i :: 0 <= i < start ==> IsSpace(s[i])
    {
      start := start + 1;
    }
    if start == |s| {
      TrimAt(s, start, start);
      return [];
    }
    var end := |s| - 1;
    while end > start && IsSpace(s[end])
      invariant start <= end < |s|
      invariant forall i :: end < i < |s| ==> IsSpace(s[i])
    {
      end := end - 1;
    }
    t := s[start..end + 1];
    TrimAt(s, start, end + 1);
  }

  // ------------------------------------------------------- key = value

  /** What `parse_key_value` accepts: nothing for a blank line, a `#`
      comment or a line without '='; otherwise the trimmed text on either
      side of the first '='. */
  function KeyValue(line: string): (r: Option<(string, string)>)
    ensures r.Some? ==> '=' in line
    ensures r.Some? ==> |r.value.0| + |r.value.1| < |line|
    ensures (forall i :: 0 <= i < |line| ==> IsSpace(line[i])) ==> r.None?
  {
    var p := SkipSpace(line, 0);
    if p == |line| || line[p] == '#' then None
    else match Find(line, '=', p)
      case None => None
      case Some(e) => Some((Trim(line[p..e]), Trim(line[e + 1..])))
  }

  /** The three kinds of rejected lines, and nothing else, are rejected. */
  lemma KeyValueRejects(line: string)
    ensures var p := SkipSpace(line, 0);
      KeyValue(line).None? <==> (p == |line| || line[p] == '#' || '=' !in line)
  {
    var p := SkipSpace(line, 0);
    SkipSpaceSkips(line, 0);
    FindFirst(line, '=', p);
    if p < |line| && line[p] != '#' {
      match Find(line, '=', p)
      case None =>
        forall i | 0 <= i < |line| ensures line[i] != '=' {
          if i < p { assert IsSpace(line[i]); }
        }
      case Some(e) =>
        assert line[e] == '=';
    }
  }

  /** An accepted key is trimmed and holds no '='; the value is trimmed. */
  lemma KeyValueFields(line: string)
    requires KeyValue(line).Some?
    ensures Trimmed(KeyValue(line).value.0) && Trimmed(KeyValue(line).value.1)
    ensures '=' !in KeyValue(line).value.0
  {
    var p := SkipSpace(line, 0);
    var e := Find(line, '=', p).value;
    var q := line[p..e];
    FindFirst(line, '=', p);
    TrimmedTrim(q);
    TrimmedTrim(line[e + 1..]);
    var i := SkipSpace(q, 0);
    var t := Trim(q);
    assert forall k :: 0 <= k < |t| ==> t[k] == q[i + k];
  }

  /** Writing a setting as `key = value` and parsing the line gives back
      the key and the value. */
  lemma KeyValueFormat(k: string, v: string)
    requires k != [] && Trimmed(k) && k[0] != '#' && '=' !in k
    requires Trimmed(v)
    ensures KeyValue(k + " = " + v + "\n") == Some((k, v))
  {
    var line := k + " = " + v + "\n";
    FormattedLineScan(k, v, line);
    FormattedLineTrims(k, v, line);
    KeyValueAt(line, 0, |k| + 1, k, v);
  }

  lemma FormattedLineScan(k: string, v: string, line: string)
    requires k != [] && Trimmed(k) && '=' !in k
    requires line == k + " = " + v + "\n"
    ensures SkipSpace(line, 0) == 0 && Find(line, '=', 0) == Some(|k| + 1)
  {
    assert line[0] == k[0];
    forall i | 0 <= i < |k| + 1 ensures line[i] != '=' {
      if i < |k| { assert line[i] == k[i]; }
    }
    FindAt(line, '=', 0, |k| + 1);
  }

  lemma FormattedLineTrims(k: string, v: string, line: string)
    requires Trimmed(k) && Trimmed(v)
    requires line == k + " = " + v + "\n"
    ensures Trim(line[0..|k| + 1]) == k && Trim(line[|k| + 2..]) == v
  {
    FormattedKeyTrim(k, line[0..|k| + 1]);
    FormattedValueTrim(v, line[|k| + 2..]);
  }

  lemma FormattedKeyTrim(k: string, s: string)
    requires Trimmed(k) && s == k + " "
    ensures Trim(s) == k
  {
    TrimAt(s, 0, |k|);
    assert s[0..|k|] == k;
  }

  lemma FormattedValueTrim(v: string, s: string)
    requires Trimmed(v) && s == " " + v + "\n"
    ensures Trim(s) == v
  {
    TrimAt(s, 1, |v| + 1);
    assert s[1..|v| + 1] == v;
  }

  /** Where `parse_key_value`'s scans stop when it finds '=' at `eq`, the key
      at `line[p..p + klen]` and the value at `line[vs..vs + vlen]`. */
  ghost predicate ScannedLine(line: string, p: nat, eq: nat, klen: nat, vs: nat, vlen: nat) {
    && p <= |line| && p == SkipSpace(line, 0) && p < |line| && line[p] != '#'
    && p <= eq < |line| && line[eq] == '='
    && (forall i :: p <= i < eq ==> line[i] != '=')
    && klen <= eq - p && (klen > 0 ==> !IsSpace(line[p + klen - 1]))
    && (forall i :: p + klen <= i < eq ==> IsSpace(line[i]))
    && eq + 1 <= vs && vs + vlen <= |line|
    && (vlen > 0 ==> !IsSpace(line[vs]) && !IsSpace(line[vs + vlen - 1]))
    && (forall i :: eq + 1 <= i < vs ==> IsSpace(line[i]))
    && (forall i :: vs + vlen <= i < |line| ==> IsSpace(line[i]))
  }

  lemma ScannedKey(line: string, p: nat, eq: nat, klen: nat, vs: nat, vlen: nat)
    requires ScannedLine(line, p, eq, klen, vs, vlen)
    ensures Find(line, '=', p) == Some(eq)
    ensures Trim(line[p..eq]) == line[p..p + klen] && Trimmed(line[p..p + klen])
  {
    FindAt(line, '=', p, eq);
    TrimSlice(line, p, p, p + klen, eq);
  }

  lemma ScannedValue(line: string, p: nat, eq: nat, klen: nat, vs: nat, vlen: nat)
    requires ScannedLine(line, p, eq, klen, vs, vlen)
    ensures Trim(line[eq + 1..]) == line[vs..vs + vlen] && Trimmed(line[vs..vs + vlen])
  {
    TrimSuffix(line, eq + 1, vs, vs + vlen);
  }

  lemma KeyValueAt(line: string, p: nat, e: nat, key: string, val: string)
    requires p == SkipSpace(line, 0) && p < |line| && line[p] != '#'
    requires p <= e < |line| && Find(line, '=', p) == Some(e)
    requires Trim(line[p..e]) == key && Trim(line[e + 1..]) == val
    ensures KeyValue(line) == Some((key, val))
  {
  }

  lemma ScanAccepts(line: string, p: nat, eq: nat, klen: nat, vs: nat, vlen: nat)
    requires ScannedLine(line, p, eq, klen, vs, vlen)
    ensures KeyValue(line) == Some((line[p..p + klen], line[vs..vs + vlen]))
    ensures Trimmed(line[p..p + klen]) && Trimmed(line[vs..vs + vlen])
  {
    ScannedKey(line, p, eq, klen, vs, vlen);
    ScannedValue(line, p, eq, klen, vs, vlen);
    KeyValueAt(line, p, eq, line[p..p + klen], line[vs..vs + vlen]);
  }

  /** `parse_key_value`, pointer by pointer: skip leading white space, reject
      a comment or end of line, find '=', back the key's end over white
      space, skip white space after '=', drop the value's trailing white
      space, then `trim_inplace` both. */
  method ParseKeyValue(line: string) returns (found: bool, key: string, val: string)
    ensures found <==> KeyValue(line).Some?
    ensures found ==> KeyValue(line).value == (key, val)
  {
    key, val := "", "";
    var p := 0;
    while p < |line| && IsSpace(line[p])
      invariant p <= |line|
      invariant forall i :: 0 <= i < p ==> IsSpace(line[i])
    {
      p := p + 1;
    }
    SkipSpaceAt(line, 0, p);
    if p == |line| || line[p] == '#' {
      return false, key, val;
    }
    var eq := p;
    while eq < |line| && line[eq] != '='
      invariant p <= eq <= |line|
      invariant forall i :: p <= i < eq ==> line[i] != '='
    {
      eq := eq + 1;
    }
    if eq == |line| {
      FindFirst(line, '=', p);
      return false, key, val;
    }
    var klen := eq - p;
    while klen > 0 && IsSpace(line[p + klen - 1])
      invariant 0 <= klen <= eq - p
      invariant forall i :: p + klen <= i < eq ==> IsSpace(line[i])
    {
      klen := klen - 1;
    }
    key := line[p..p + klen];
    var vs := eq + 1;
    while vs < |line| && IsSpace(line[vs])
      invariant eq + 1 <= vs <= |line|
      invariant forall i :: eq + 1 <= i < vs ==> IsSpace(line[i])
    {
      vs := vs + 1;
    }
    var vlen := |line| - vs;
    while vlen > 0 && IsSpace(line[vs + vlen - 1])
      invariant 0 <= vlen <= |line| - vs
      invariant forall i :: vs + vlen <= i < |line| ==> IsSpace(line[i])
    {
      vlen := vlen - 1;
    }
    val := line[vs..vs + vlen];
    ScanAccepts(line, p, eq, klen, vs, vlen);
    TrimTrimmed(key);
    TrimTrimmed(val);
    key := TrimInPlace(key);
    val := TrimInPlace(val);
    found := true;
  }

  // ------------------------------------------------------------- values

  /** `parse_bool`: a prefix test against "true", "yes", "1" and "on". */
  function ParseBool(v: string): (r: bool)
    ensures r <==>
      || (|v| >= 1 && v[0] == '1')
      || (|v| >= 2 && v[0] == 'o' && v[1] == 'n')
      || (|v| >= 3 && v[0] == 'y' && v[1] == 'e' && v[2] == 's')
      || (|v| >= 4 && v[0] == 't' && v[1] == 'r' && v[2] == 'u' && v[3] == 'e')
  {
    HasPrefix(v, "true") || HasPrefix(v, "yes") || HasPrefix(v, "1") || HasPrefix(v, "on")
  }

  /** A prefix test fails on a text that is too short or differs at `k`. */
  lemma NotPrefix(s: string, p: string, k: nat)
    requires k < |p| && (k >= |s| || s[k] != p[k])
    ensures !HasPrefix(s, p)
  {
    if |p| <= |s| {
      assert s[..|p|][k] == s[k];
    }
  }

  /** Being a prefix test, anything that extends a true value is true. */
  lemma ParseBoolExtends(v: string, w: string)
    requires ParseBool(v)
    ensures ParseBool(v + w)
  {
    var vw := v + w;
    forall p: string | HasPrefix(v, p) ensures HasPrefix(vw, p) {
      assert vw[..|p|] == v[..|p|];
    }
  }

  /** Values are not lower-cased: "TRUE" and "Yes" are false, while "1000"
      and "online" are true. */
  lemma ParseBoolExamples()
    ensures ParseBool("1000") && ParseBool("online") && ParseBool("yes")
    ensures !ParseBool("TRUE") && !ParseBool("Yes") && !ParseBool("false")
    ensures !ParseBool("0") && !ParseBool("off") && !ParseBool("")
  {
    assert "1000"[..1] == "1";
    assert "online"[..2] == "on";
    assert "yes"[..3] == "yes";
    forall v | v in ["TRUE", "Yes", "false", "0", "off", ""] ensures !ParseBool(v) {
      NotPrefix(v, "true", 0);
      NotPrefix(v, "yes", 0);
      NotPrefix(v, "1", 0);
      NotPrefix(v, "on", if v == "off" then 1 else 0);
    }
  }

  /** The `exit_key` value: a name prefix, else `atoi`. */
  function ExitKey(v: string): (r: int)
    ensures INT_MIN <= r <= INT_MAX
    ensures r != Atoi(v) ==> r in {KEY_DELETE, KEY_ESCAPE, KEY_SPACE, KEY_ENTER, KEY_BACKSPACE}
    ensures v != [] && IsDigit(v[0]) ==> r == Atoi(v)
  {
    if HasPrefix(v, "DELETE") then KEY_DELETE
    else if HasPrefix(v, "ESCAPE") then KEY_ESCAPE
    else if HasPrefix(v, "SPACE") then KEY_SPACE
    else if HasPrefix(v, "ENTER") then KEY_ENTER
    else if HasPrefix(v, "BACKSPACE") then KEY_BACKSPACE
    else Atoi(v)
  }

  /** A number given for `exit_key` is used as the key code. */
  lemma ExitKeyNumber(n: nat)
    ensures n <= INT_MAX ==> ExitKey(Decimal(n)) == n
    ensures ExitKey(Decimal(n)) == CInt(if n <= LONG_MAX then n else LONG_MAX)
  {
    var s := Decimal(n);
    assert IsDigit(s[0]);
    NotPrefix(s, "DELETE", 0);
    NotPrefix(s, "ESCAPE", 0);
    NotPrefix(s, "SPACE", 0);
    NotPrefix(s, "ENTER", 0);
    NotPrefix(s, "BACKSPACE", 0);
    AtoiDecimal(n);
  }

  /** Names are matched by prefix and case-sensitively: "ENTERING" is the
      Enter key, while "escape" falls through to `atoi` and gives 0. */
  lemma ExitKeyNames()
    ensures ExitKey("ESCAPE") == KEY_ESCAPE && ExitKey("ENTERING") == KEY_ENTER
    ensures ExitKey("escape") == 0
  {
    assert "ESCAPE"[..6] == "ESCAPE";
    assert "ENTERING"[..5] == "ENTER";
    NotPrefix("ENTERING", "DELETE", 0);
    NotPrefix("ENTERING", "ESCAPE", 1);
    NotPrefix("ENTERING", "SPACE", 0);
    var e := "escape";
    NotPrefix(e, "DELETE", 0);
    NotPrefix(e, "ESCAPE", 0);
    NotPrefix(e, "SPACE", 0);
    NotPrefix(e, "ENTER", 0);
    NotPrefix(e, "BACKSPACE", 0);
    assert SkipSpace(e, 0) == 0 by { assert !IsSpace(e[0]); }
    assert DigitsEnd(e, 0) == 0 by { assert !IsDigit(e[0]); }
  }

  // ------------------------------------------------------------ dispatch

  const KNOWN_KEYS: set<string> := {
    "title", "width", "height", "fps", "script", "exit_key",
    "fullscreen", "author", "api_version", "resizable", "vsync" }

  lemma KnownKeysShort()
    ensures forall k :: k in KNOWN_KEYS ==> |k| <= 11
  {
  }

  /** Every field other than the one `key` names is the same in `c` and `r`. */
  ghost predicate OnlyKeyChanged(c: Config, r: Config, key: string) {
    && (key != "title" ==> r.title == c.title)
    && (key != "author" ==> r.author == c.author)
    && (key != "width" ==> r.width == c.width)
    && (key != "height" ==> r.height == c.height)
    && (key != "fps" ==> r.fps == c.fps)
    && (key != "api_version" ==> r.apiVersion == c.apiVersion)
    && (key != "script" ==> r.script == c.script)
    && (key != "exit_key" ==> r.exitKey == c.exitKey)
    && (key != "fullscreen" ==> r.fullscreen == c.fullscreen)
    && (key != "resizable" ==> r.resizable == c.resizable)
    && (key != "vsync" ==> r.vsync == c.vsync)
  }

  /** The per-line dispatch of the loader on a lower-cased key. */
  function SetField(c: Config, key: string, val: string): (r: Config)
    ensures key !in KNOWN_KEYS ==> r == c
    ensures OnlyKeyChanged(c, r, key)
    ensures Wellformed(c) ==> Wellformed(r)
    ensures key == "width" ==> r.width == (if Atoi(val) > 0 then Atoi(val) else c.width)
    ensures key == "height" ==> r.height == (if Atoi(val) > 0 then Atoi(val) else c.height)
    ensures key == "fps" ==> r.fps == (if Atoi(val) > 0 then Atoi(val) else c.fps)
    ensures key == "title" ==> |r.title| == Min(|val|, TITLE_ROOM) && r.title == val[..|r.title|]
    ensures key == "script" ==> |r.script| == Min(|val|, SCRIPT_ROOM) && r.script == val[..|r.script|]
    ensures key == "author" ==> |r.author| == Min(|val|, AUTHOR_ROOM) && r.author == val[..|r.author|]
    ensures key == "api_version" ==>
      |r.apiVersion| == Min(|val|, API_VERSION_ROOM) && r.apiVersion == val[..|r.apiVersion|]
    ensures key == "exit_key" ==> r.exitKey == ExitKey(val)
    ensures key == "fullscreen" ==> r.fullscreen == ParseBool(val)
    ensures key == "resizable" ==> r.resizable == ParseBool(val)
    ensures key == "vsync" ==> r.vsync == ParseBool(val)
  {
    if key == "title" then c.(title := Truncate(val, TITLE_ROOM))
    else if key == "width" then
      var w := Atoi(val); c.(width := if w > 0 then w else c.width)
    else if key == "height" then
      var h := Atoi(val); c.(height := if h > 0 then h else c.height)
    else if key == "fps" then
      var fps := Atoi(val); c.(fps := if fps > 0 then fps else c.fps)
    else if key == "script" then c.(script := Truncate(val, SCRIPT_ROOM))
    else if key == "exit_key" then c.(exitKey := ExitKey(val))
    else if key == "fullscreen" then c.(fullscreen := ParseBool(val))
    else if key == "author" then c.(author := Truncate(val, AUTHOR_ROOM))
    else if key == "api_version" then c.(apiVersion := Truncate(val, API_VERSION_ROOM))
    else if key == "resizable" then c.(resizable := ParseBool(val))
    else if key == "vsync" then c.(vsync := ParseBool(val))
    else c
  }

  /** One line's effect: nothing unless it is a `key = value` line. */
  function ApplyLine(c: Config, line: string): Config {
    match KeyValue(line)
    case None => c
    case Some((k, v)) => SetField(c, Lower(k), v)
  }

  /** The configuration after the first `n` lines, starting from `c`. */
  function ApplyLines(c: Config, lines: seq<string>, n: nat): Config
    requires n <= |lines|
  {
    if n == 0 then c else ApplyLine(ApplyLines(c, lines, n - 1), lines[n - 1])
  }

  /** Does the line draw the "Unknown config key" warning? */
  predicate WarnsUnknown(line: string) {
    KeyValue(line).Some? && Lower(KeyValue(line).value.0) !in KNOWN_KEYS
  }

  /** The line numbers, counted from 1, among the first `n` lines that draw
      the warning. */
  function UnknownKeyLines(lines: seq<string>, n: nat): seq<nat>
    requires n <= |lines|
  {
    if n == 0 then []
    else UnknownKeyLines(lines, n - 1) + (if WarnsUnknown(lines[n - 1]) then [n] else [])
  }

  /** The configuration a file yields; a file that cannot be opened yields
      the defaults. */
  function Load(file: Option<string>): Config {
    match file
    case None => Defaults()
    case Some(text) =>
      var lines := Chunks(text, LINE_BUFFER);
      ApplyLines(Defaults(), lines, |lines|)
  }

  lemma {:induction false} ApplyLinesWellformed(c: Config, lines: seq<string>, n: nat)
    requires n <= |lines| && Wellformed(c)
    ensures Wellformed(ApplyLines(c, lines, n))
  {
    if n > 0 {
      ApplyLinesWellformed(c, lines, n - 1);
    }
  }

  /** Whatever the file says, the loaded window size and frame rate are
      positive and every string fits its buffer. */
  lemma LoadWellformed(file: Option<string>)
    ensures Wellformed(Load(file))
  {
    if file.Some? {
      var lines := Chunks(file.value, LINE_BUFFER);
      ApplyLinesWellformed(Defaults(), lines, |lines|);
    }
  }

  /** Lines that are not `key = value`, or name an unknown key, leave the
      configuration as it was. */
  lemma {:induction false} IgnoredLinesKeepConfig(c: Config, lines: seq<string>, n: nat)
    requires n <= |lines|
    requires forall i :: 0 <= i < n ==> KeyValue(lines[i]).None? || WarnsUnknown(lines[i])
    ensures ApplyLines(c, lines, n) == c
  {
    if n > 0 {
      IgnoredLinesKeepConfig(c, lines, n - 1);
    }
  }

  /** A `width = n` line sets the width to any positive `n` that fits an
      `int`, whatever the case of the key; a larger `n` is what `atoi`
      makes of it, and is used only when that is positive. */
  lemma WidthLineSetsWidth(c: Config, n: nat, key: string)
    requires n > 0 && Lower(key) == "width"
    ensures n <= INT_MAX ==> ApplyLine(c, key + " = " + Decimal(n) + "\n").width == n
    ensures var w := CInt(if n <= LONG_MAX then n else LONG_MAX);
      ApplyLine(c, key + " = " + Decimal(n) + "\n").width == (if w > 0 then w else c.width)
  {
    assert key[0] != '#' && Trimmed(key) && '=' !in key by {
      assert forall i :: 0 <= i < |key| ==> ToLower(key[i]) == "width"[i];
    }
    assert Trimmed(Decimal(n)) by {
      var d := Decimal(n);
      assert IsDigit(d[0]) && IsDigit(d[|d| - 1]);
    }
    KeyValueFormat(key, Decimal(n));
    AtoiDecimal(n);
  }

  /** A width of 3000000000 wraps to a negative `int` and is ignored. */
  lemma WidthOverflowIgnored(c: Config)
    ensures ApplyLine(c, "width = " + Decimal(3_000_000_000) + "\n").width == c.width
  {
    assert "width" + " = " == "width = ";
    assert Lower("width") == "width";
    WidthLineSetsWidth(c, 3_000_000_000, "width");
    assert CInt(3_000_000_000) == -1_294_967_296;
  }

  /** `tolower` over the key buffer, in place. */
  method LowerInPlace(a: array<char>)
    modifies a
    ensures a[..] == Lower(old(a[..]))
  {
    var i := 0;
    while i < a.Length
      invariant 0 <= i <= a.Length
      invariant forall j :: 0 <= j < i ==> a[j] == ToLower(old(a[j]))
      invariant forall j :: i <= j < a.Length ==> a[j] == old(a[j])
    {
      a[i] := ToLower(a[i]);
      i := i + 1;
    }
  }

  /** The key is copied into a buffer and lower-cased there. */
  method LowerKey(key: string) returns (lowered: string)
    ensures lowered == Lower(key)
  {
    var buf := new char[|key|](i requires 0 <= i < |key| => key[i]);
    assert buf[..] == key;
    LowerInPlace(buf);
    lowered := buf[..];
  }

  /** The body of the loader's read loop for one `fgets` chunk: parse it,
      lower-case the key, then set the field it names or warn. */
  method HandleLine(c: Config, line: string) returns (next: Config, unknown: bool)
    ensures next == ApplyLine(c, line)
    ensures unknown == WarnsUnknown(line)
  {
    next, unknown := c, false;
    var found, key, val := ParseKeyValue(line);
    if found {
      assert KeyValue(line) == Some((key, val));
      var lowered := LowerKey(key);
      if lowered in KNOWN_KEYS {
        next := SetField(c, lowered, val);
      } else {
        unknown := true;
      }
    }
  }

  /** The state of the read loop after `n` chunks: the configuration they
      produce, and the chunk numbers of those that set an unknown key. */
  ghost predicate LoadedUpTo(lines: seq<string>, n: nat, c: Config, warnings: seq<nat>) {
    n <= |lines| && c == ApplyLines(Defaults(), lines, n) && warnings == UnknownKeyLines(lines, n)
  }

  /** The body of the read loop: handle chunk number `n + 1` and warn if it
      sets an unknown key. */
  method HandleChunk(c: Config, warnings: seq<nat>, line: string, ghost lines: seq<string>, n: nat)
    returns (next: Config, nextWarnings: seq<nat>)
    requires n < |lines| && line == lines[n] && LoadedUpTo(lines, n, c, warnings)
    ensures LoadedUpTo(lines, n + 1, next, nextWarnings)
  {
    var unknown;
    next, unknown := HandleLine(c, line);
    nextWarnings := if unknown then warnings + [n + 1] else warnings;
  }

  /** The read loop of `aph_config_load_from_file` over the text of an
      opened file: every chunk is handled in turn, and every chunk that sets
      an unknown key is reported by its 1-based chunk number. */
  method LoadText(text: string) returns (c: Config, warnings: seq<nat>)
    ensures var lines := Chunks(text, LINE_BUFFER);
      c == ApplyLines(Defaults(), lines, |lines|) && warnings == UnknownKeyLines(lines, |lines|)
  {
    c := Defaults();
    warnings := [];
    ghost var lines := Chunks(text, LINE_BUFFER);
    var pos, lineNum := 0, 0;
    assert text[pos..] == text;
    while pos < |text|
      invariant ReadUpTo(text, LINE_BUFFER, lines, lineNum, pos)
      invariant LoadedUpTo(lines, lineNum, c, warnings)
      decreases |text| - pos
    {
      var line := ReadChunk(text, pos, LINE_BUFFER, lines, lineNum);
      c, warnings := HandleChunk(c, warnings, line, lines, lineNum);
      pos := pos + |line|;
      lineNum := lineNum + 1;
    }
    assert text[pos..] == [];
  }

  /** `aph_config_load_from_file`: start from the defaults; if the file
      opens, read it `fgets` chunk by chunk and handle each chunk. `file`
      is the file's text, `None` when it cannot be opened. */
  method LoadFromFile(file: Option<string>) returns (c: Config, warnings: seq<nat>)
    ensures c == Load(file)
    ensures file.None? ==> c == Defaults() && warnings == []
    ensures file.Some? ==> var lines := Chunks(file.value, LINE_BUFFER);
      warnings == UnknownKeyLines(lines, |lines|)
  {
    if file.None? {
      return Defaults(), [];
    }
    c, warnings := LoadText(file.value);
  }

  // ----------------------------------- the key and value buffers as written

  /** Bytes that `parse_key_value` as written stores into `key_out` and into
      `val_out`, terminators included, for a line it accepts: the key up to
      its trailing white space, and the value from its first non-space on. */
  function BufferBytesWritten(line: string): (r: (nat, nat))
    requires KeyValue(line).Some?
    ensures r.0 >= 1 && r.1 >= 1
  {
    var p := SkipSpace(line, 0);
    var e := Find(line, '=', p).value;
    (BackOverSpace(line, p, e) - p + 1, |line| - SkipSpace(line, e + 1) + 1)
  }

  function Repeat(c: char, n: nat): (s: string)
    ensures |s| == n && forall i :: 0 <= i < n ==> s[i] == c
  {
    if n == 0 then [] else [c] + Repeat(c, n - 1)
  }

  /** A single `fgets` chunk can hold a key of 300 characters, which
      `parse_key_value` copies into the 256-byte key buffer without a bound. */
  lemma KeyBufferOverflow()
    ensures var line := Repeat('k', 300) + "=1\n";
      |line| < LINE_BUFFER && KeyValue(line).Some? && BufferBytesWritten(line).0 > KEY_BUFFER
  {
    var line := Repeat('k', 300) + "=1\n";
    assert SkipSpace(line, 0) == 0 by { assert line[0] == 'k'; }
    FindAt(line, '=', 0, 300);
    assert BackOverSpace(line, 0, 300) == 300 by { assert line[299] == 'k'; }
  }

  /** The same holds for a value of 1000 characters and the 768-byte value
      buffer. */
  lemma ValueBufferOverflow()
    ensures var line := "v=" + Repeat('x', 1000);
      |line| < LINE_BUFFER && KeyValue(line).Some? && BufferBytesWritten(line).1 > VALUE_BUFFER
  {
    var line := "v=" + Repeat('x', 1000);
    assert SkipSpace(line, 0) == 0 by { assert line[0] == 'v'; }
    FindAt(line, '=', 0, 1);
    assert SkipSpace(line, 2) == 2 by { assert line[2] == 'x'; }
  }

  /** In the model a key of any length is parsed whole and, being longer than
      every known key, only draws the unknown-key warning. */
  lemma OverlongKeyIsIgnored(c: Config, line: string)
    requires KeyValue(line).Some? && |KeyValue(line).value.0| >= KEY_BUFFER
    ensures ApplyLine(c, line) == c && WarnsUnknown(line)
  {
    KnownKeysShort();
  }
}
