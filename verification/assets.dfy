/** The asset manifest of the game: `load_assets_yaml` walks the scalar
    events of a YAML file, and inside a `tiles`, `sprites` or `music`
    section pairs consecutive scalars into (name, path) entries of one of
    four global arrays of `MAX_ASSETS` entries; `search_assets` looks an
    entry up by name. The YAML parser is abstract: a file is the sequence of
    events it yields. */
module Assets {
  import opened CString

  const MAX_ASSETS := 512
  /** `sizeof(Asset.name)`, `sizeof(Asset.path)` and `sizeof(last_key)`. */
  const NAME_SIZE := 64
  const PATH_SIZE := 256
  const KEY_SIZE := 64

  datatype Asset = Asset(name: string, path: string)

  /** The events of libyaml the loader tells apart. */
  datatype YamlEvent = StreamEnd | MappingStart | Scalar(value: string) | OtherEvent

  datatype Section = NoSection | Tiles | Sprites | Music

  /** `current_array`: none yet, or one of the four global arrays. */
  datatype Target = NoTarget | TileAssets | SpriteAssets | MusicAssets | SfxAssets

  /** The loader's loop variables. */
  datatype Scan = Scan(section: Section, target: Target, idx: nat, lastKey: string)

  const START := Scan(NoSection, NoTarget, 0, "")

  /** An entry stored at `current_array[asset_idx]`. */
  datatype Write = Write(target: Target, idx: nat, asset: Asset)

  predicate IsKeyword(v: string) {
    v == "tiles" || v == "sprites" || v == "music" || v == "sfx"
  }

  /** The array a section collects into. */
  function TargetOf(s: Section): Target {
    match s
    case NoSection => NoTarget
    case Tiles => TileAssets
    case Sprites => SpriteAssets
    case Music => MusicAssets
  }

  /** One event of the loop (other than the stream end): the next loop
      variables and the entry it stores, if any. */
  function Step(s: Scan, e: YamlEvent): (r: (Scan, Option<Write>))
    ensures !e.Scalar? ==> r == (s, None)
    ensures r.1.Some? <==>
      e.Scalar? && !IsKeyword(e.value) && s.section != NoSection && s.target != NoTarget && s.lastKey != []
    ensures r.1.Some? ==> (
      && r.1.value.target == s.target && r.1.value.idx == s.idx
      && r.1.value.asset.name == s.lastKey[..Min(|s.lastKey|, NAME_SIZE)]
      && r.1.value.asset.path == e.value[..Min(|e.value|, PATH_SIZE)]
      && r.0 == Scan(s.section, s.target, s.idx + 1, ""))
    ensures r.1.None? && !(e.Scalar? && IsKeyword(e.value)) ==> (
      && r.0.section == s.section && r.0.target == s.target && r.0.idx == s.idx
      && (r.0.lastKey == s.lastKey || (s.lastKey == [] && r.0.lastKey == e.value[..Min(|e.value|, KEY_SIZE)])))
  {
    if !e.Scalar? then (s, None)
    else if e.value == "tiles" then (Scan(Tiles, TileAssets, 0, s.lastKey), None)
    else if e.value == "sprites" then (Scan(Sprites, SpriteAssets, 0, s.lastKey), None)
    else if e.value == "music" then (Scan(Music, MusicAssets, 0, s.lastKey), None)
    else if e.value == "sfx" then (Scan(NoSection, SfxAssets, 0, s.lastKey), None)
    else if s.section == NoSection then (s, None)
    else if s.target == NoTarget then (s, None)
    else if s.lastKey == [] then (Scan(s.section, s.target, s.idx, Truncate(e.value, KEY_SIZE)), None)
    else (Scan(s.section, s.target, s.idx + 1, ""),
          Some(Write(s.target, s.idx, Asset(Truncate(s.lastKey, NAME_SIZE), Truncate(e.value, PATH_SIZE)))))
  }

  function Stored(w: Option<Write>): seq<Write> {
    if w.Some? then [w.value] else []
  }

  /** The loop from state `s` over `events`, up to the stream end: the final
      state and the entries stored, in order. */
  function Feed(s: Scan, events: seq<YamlEvent>): (Scan, seq<Write>)
    decreases |events|
  {
    if events == [] || events[0] == StreamEnd then (s, [])
    else
      var (t, w) := Step(s, events[0]);
      var (u, ws) := Feed(t, events[1..]);
      (u, Stored(w) + ws)
  }

  /** The entries a whole file stores. */
  function Writes(events: seq<YamlEvent>): seq<Write> {
    Feed(START, events).1
  }

  // ------------------------------------------------ single-step facts

  /** A section keyword resets `asset_idx` and retargets the array; `sfx`
      turns collection off. A keyword never stores an entry and keeps a
      pending name. */
  lemma KeywordResets(s: Scan, v: string)
    requires IsKeyword(v)
    ensures var (t, w) := Step(s, Scalar(v));
      && w.None? && t.idx == 0 && t.lastKey == s.lastKey
      && (v == "tiles" ==> t.section == Tiles && t.target == TileAssets)
      && (v == "sprites" ==> t.section == Sprites && t.target == SpriteAssets)
      && (v == "music" ==> t.section == Music && t.target == MusicAssets)
      && (v == "sfx" ==> t.section == NoSection && t.target == SfxAssets)
  {
  }

  /** While no section is active, everything but a section keyword is
      ignored: no entry is stored and the state stays as it is. */
  lemma {:induction false} IgnoredOutsideSection(s: Scan, events: seq<YamlEvent>)
    requires s.section == NoSection
    requires forall k :: 0 <= k < |events| && events[k].Scalar? ==> !IsKeyword(events[k].value)
    ensures Feed(s, events) == (s, [])
    decreases |events|
  {
    if events != [] && events[0] != StreamEnd {
      assert Step(s, events[0]) == (s, None);
      assert forall k :: 0 <= k < |events[1..]| ==> events[1..][k] == events[k + 1];
      IgnoredOutsideSection(s, events[1..]);
      assert Feed(s, events) == (Feed(s, events[1..]).0, Stored(None) + Feed(s, events[1..]).1);
      assert Feed(s, events[1..]) == (s, []);
      assert Stored(None) + [] == [];
    }
  }

  /** The state the loop keeps: an active section collects into its own array. */
  predicate Consistent(s: Scan) {
    s.section != NoSection ==> s.target == TargetOf(s.section)
  }

  /** Entries only ever go to the array of an active section, so `sfx_assets`
      is never filled. */
  lemma {:induction false} NoSfxWrites(s: Scan, events: seq<YamlEvent>)
    requires Consistent(s)
    ensures Consistent(Feed(s, events).0)
    ensures forall k :: 0 <= k < |Feed(s, events).1| ==> Feed(s, events).1[k].target != SfxAssets
    decreases |events|
  {
    if events != [] && events[0] != StreamEnd {
      var (t, w) := Step(s, events[0]);
      NoSfxWrites(t, events[1..]);
    }
  }

  lemma SfxNeverFilled(events: seq<YamlEvent>)
    ensures forall k :: 0 <= k < |Writes(events)| ==> Writes(events)[k].target != SfxAssets
  {
    NoSfxWrites(START, events);
  }

  // ---------------------------------------------------- (name, path) pairs

  /** The scalars of a section body: name, path, name, path, ... */
  function Flatten(pairs: seq<(string, string)>): (events: seq<YamlEvent>)
    ensures |events| == 2 * |pairs|
  {
    if pairs == [] then [] else [Scalar(pairs[0].0), Scalar(pairs[0].1)] + Flatten(pairs[1..])
  }

  /** Pairs that are stored as they come: names are not empty and neither
      names nor paths are section keywords. */
  predicate PlainPairs(pairs: seq<(string, string)>) {
    forall k :: 0 <= k < |pairs| ==> pairs[k].0 != [] && !IsKeyword(pairs[k].0) && !IsKeyword(pairs[k].1)
  }

  function Entries(target: Target, idx: nat, pairs: seq<(string, string)>): (ws: seq<Write>)
    ensures |ws| == |pairs|
    ensures forall k :: 0 <= k < |pairs| ==>
      ws[k] == Write(target, idx + k, Asset(Truncate(pairs[k].0, NAME_SIZE), Truncate(pairs[k].1, PATH_SIZE)))
  {
    seq(|pairs|, k requires 0 <= k < |pairs| =>
      Write(target, idx + k, Asset(Truncate(pairs[k].0, NAME_SIZE), Truncate(pairs[k].1, PATH_SIZE))))
  }

  /** Inside a section, consecutive scalars become (name, path) entries at
      consecutive indices from `asset_idx` on, and `last_key` is clear after
      each pair. */
  lemma {:induction false} PairsBecomeEntries(s: Scan, pairs: seq<(string, string)>, rest: seq<YamlEvent>)
    requires s.section != NoSection && s.target != NoTarget && s.lastKey == []
    requires PlainPairs(pairs)
    ensures Feed(s, Flatten(pairs) + rest).1 == Entries(s.target, s.idx, pairs) + Feed(Scan(s.section, s.target, s.idx + |pairs|, ""), rest).1
    decreases |pairs|
  {
    if pairs == [] {
      assert Flatten(pairs) + rest == rest;
    } else {
      var u := Scan(s.section, s.target, s.idx + 1, "");
      var tail := Flatten(pairs[1..]) + rest;
      var w0 := Write(s.target, s.idx, Asset(Truncate(pairs[0].0, NAME_SIZE), Truncate(pairs[0].1, PATH_SIZE)));
      var last := Feed(Scan(s.section, s.target, s.idx + |pairs|, ""), rest).1;
      assert Flatten(pairs) + rest == [Scalar(pairs[0].0), Scalar(pairs[0].1)] + tail;
      PairStep(s, pairs[0].0, pairs[0].1, tail);
      PairsBecomeEntries(u, pairs[1..], rest);
      assert Feed(u, tail).1 == Entries(s.target, s.idx + 1, pairs[1..]) + last;
      EntriesCons(s.target, s.idx, pairs);
      WritesAssociative([w0], Entries(s.target, s.idx + 1, pairs[1..]), last);
    }
  }

  lemma WritesAssociative(a: seq<Write>, b: seq<Write>, c: seq<Write>)
    ensures a + (b + c) == a + b + c
  {
  }

  /** One (name, path) pair inside a section. */
  lemma PairStep(s: Scan, name: string, path: string, rest: seq<YamlEvent>)
    requires s.section != NoSection && s.target != NoTarget && s.lastKey == []
    requires name != [] && !IsKeyword(name) && !IsKeyword(path)
    ensures Feed(s, [Scalar(name), Scalar(path)] + rest).1
      == [Write(s.target, s.idx, Asset(Truncate(name, NAME_SIZE), Truncate(path, PATH_SIZE)))]
       + Feed(Scan(s.section, s.target, s.idx + 1, ""), rest).1
  {
    var t := Scan(s.section, s.target, s.idx, Truncate(name, KEY_SIZE));
    var events := [Scalar(name), Scalar(path)] + rest;
    assert Step(s, Scalar(name)) == (t, None);
    assert events[1..] == [Scalar(path)] + rest;
    assert ([Scalar(path)] + rest)[1..] == rest;
    assert Truncate(Truncate(name, KEY_SIZE), NAME_SIZE) == Truncate(name, NAME_SIZE);
  }

  lemma EntriesCons(target: Target, idx: nat, pairs: seq<(string, string)>)
    requires pairs != []
    ensures Entries(target, idx, pairs)
      == [Write(target, idx, Asset(Truncate(pairs[0].0, NAME_SIZE), Truncate(pairs[0].1, PATH_SIZE)))]
       + Entries(target, idx + 1, pairs[1..])
  {
  }

  /** A file that opens a section and lists pairs stores them from index 0. */
  lemma SectionEntries(keyword: string, pairs: seq<(string, string)>)
    requires keyword == "tiles" || keyword == "sprites" || keyword == "music"
    requires PlainPairs(pairs)
    ensures var t := Step(START, Scalar(keyword)).0;
      Writes([Scalar(keyword)] + Flatten(pairs)) == Entries(t.target, 0, pairs)
  {
    var t := Step(START, Scalar(keyword)).0;
    PairsBecomeEntries(t, pairs, []);
    assert [Scalar(keyword)] + Flatten(pairs) == [Scalar(keyword)] + (Flatten(pairs) + []);
  }

  // ------------------------------------------------- the index as written

  /** `asset_idx` is never checked against `MAX_ASSETS`: a section with more
      than 512 pairs stores its 513th entry at index 512, one past the end
      of the array. */
  lemma IndexPassesCapacity(pairs: seq<(string, string)>)
    requires |pairs| > MAX_ASSETS && PlainPairs(pairs)
    ensures var ws := Writes([Scalar("tiles")] + Flatten(pairs));
      |ws| > MAX_ASSETS && ws[MAX_ASSETS].target == TileAssets && ws[MAX_ASSETS].idx == MAX_ASSETS
  {
    SectionEntries("tiles", pairs);
  }

  // --------------------------------------------------------- the arrays

  /** The contents of the four global arrays. */
  datatype Tables = Tables(tiles: seq<Asset>, sprites: seq<Asset>, music: seq<Asset>, sfx: seq<Asset>)

  /** The array an entry goes to (nothing for `NoTarget`). */
  function Table(t: Tables, target: Target): seq<Asset> {
    match target
    case TileAssets => t.tiles
    case SpriteAssets => t.sprites
    case MusicAssets => t.music
    case SfxAssets => t.sfx
    case NoTarget => []
  }

  predicate InBounds(t: Tables, w: Write) {
    w.idx < |Table(t, w.target)|
  }

  /** Storing one entry, with the bounds check `asset_idx < MAX_ASSETS` the
      loader lacks: an entry past the end of its array is dropped, one
      within it replaces that slot alone. */
  function Put(t: Tables, w: Write): (r: Tables)
    ensures !InBounds(t, w) ==> r == t
    ensures InBounds(t, w) ==> Table(r, w.target) == Table(t, w.target)[w.idx := w.asset]
    ensures forall other :: other != w.target ==> Table(r, other) == Table(t, other)
  {
    match w.target
    case TileAssets => if w.idx < |t.tiles| then Tables(t.tiles[w.idx := w.asset], t.sprites, t.music, t.sfx) else t
    case SpriteAssets => if w.idx < |t.sprites| then Tables(t.tiles, t.sprites[w.idx := w.asset], t.music, t.sfx) else t
    case MusicAssets => if w.idx < |t.music| then Tables(t.tiles, t.sprites, t.music[w.idx := w.asset], t.sfx) else t
    case SfxAssets => if w.idx < |t.sfx| then Tables(t.tiles, t.sprites, t.music, t.sfx[w.idx := w.asset]) else t
    case NoTarget => t
  }

  /** Storing the entries in order. */
  function Commit(t: Tables, ws: seq<Write>): Tables
    decreases |ws|
  {
    if ws == [] then t else Put(Commit(t, ws[..|ws| - 1]), ws[|ws| - 1])
  }

  /** Every array keeps its length; a slot no entry names keeps its value,
      and the last entry stored at a slot wins. */
  lemma {:induction false} CommitSlot(t: Tables, ws: seq<Write>, target: Target, i: nat)
    requires i < |Table(t, target)|
    ensures |Table(Commit(t, ws), target)| == |Table(t, target)|
    ensures (forall k :: 0 <= k < |ws| ==> ws[k].target != target || ws[k].idx != i) ==>
      Table(Commit(t, ws), target)[i] == Table(t, target)[i]
    ensures |ws| > 0 && ws[|ws| - 1].target == target && ws[|ws| - 1].idx == i ==>
      Table(Commit(t, ws), target)[i] == ws[|ws| - 1].asset
    decreases |ws|
  {
    if ws != [] {
      CommitSlot(t, ws[..|ws| - 1], target, i);
    }
  }

  /** An array no entry targets keeps its contents. */
  lemma {:induction false} CommitUntargeted(t: Tables, ws: seq<Write>, target: Target)
    requires forall k :: 0 <= k < |ws| ==> ws[k].target != target
    ensures Table(Commit(t, ws), target) == Table(t, target)
    decreases |ws|
  {
    if ws != [] {
      CommitUntargeted(t, ws[..|ws| - 1], target);
    }
  }

  /** Whatever a file says, loading it leaves `sfx_assets` as it was. */
  lemma SfxKept(t: Tables, events: seq<YamlEvent>)
    ensures Commit(t, Writes(events)).sfx == t.sfx
  {
    SfxNeverFilled(events);
    CommitUntargeted(t, Writes(events), SfxAssets);
  }

  /** The four global arrays. */
  class Manifest {
    const tiles: array<Asset>
    const sprites: array<Asset>
    const music: array<Asset>
    const sfx: array<Asset>

    predicate Valid() {
      tiles.Length == MAX_ASSETS && sprites.Length == MAX_ASSETS &&
      music.Length == MAX_ASSETS && sfx.Length == MAX_ASSETS &&
      tiles != sprites && tiles != music && tiles != sfx &&
      sprites != music && sprites != sfx && music != sfx
    }

    function Contents(): Tables
      reads tiles, sprites, music, sfx
    {
      Tables(tiles[..], sprites[..], music[..], sfx[..])
    }

    /** Zero-initialised globals: every name and path is empty. */
    constructor ()
      ensures Valid() && fresh(tiles) && fresh(sprites) && fresh(music) && fresh(sfx)
      ensures forall k :: 0 <= k < MAX_ASSETS ==>
        tiles[k] == Asset("", "") && sprites[k] == Asset("", "") && music[k] == Asset("", "") && sfx[k] == Asset("", "")
    {
      tiles := new Asset[MAX_ASSETS](_ => Asset("", ""));
      sprites := new Asset[MAX_ASSETS](_ => Asset("", ""));
      music := new Asset[MAX_ASSETS](_ => Asset("", ""));
      sfx := new Asset[MAX_ASSETS](_ => Asset("", ""));
    }

    /** `strncpy` into `current_array[asset_idx]`, skipped past the end of the array. */
    method Store(w: Write)
      requires Valid()
      modifies tiles, sprites, music, sfx
      ensures Contents() == Put(old(Contents()), w)
    {
      if w.idx < MAX_ASSETS {
        match w.target {
          case TileAssets => tiles[w.idx] := w.asset;
          case SpriteAssets => sprites[w.idx] := w.asset;
          case MusicAssets => music[w.idx] := w.asset;
          case SfxAssets => sfx[w.idx] := w.asset;
          case NoTarget =>
        }
      }
    }

    /** The body of the loop for one event other than the stream end. */
    method Handle(s: Scan, e: YamlEvent) returns (next: Scan)
      requires Valid()
      modifies tiles, sprites, music, sfx
      ensures next == Step(s, e).0
      ensures Contents() == Commit(old(Contents()), Stored(Step(s, e).1))
    {
      next := s;
      if e.Scalar? {
        var val := e.value;
        if val == "tiles" {
          next := Scan(Tiles, TileAssets, 0, s.lastKey);
        } else if val == "sprites" {
          next := Scan(Sprites, SpriteAssets, 0, s.lastKey);
        } else if val == "music" {
          next := Scan(Music, MusicAssets, 0, s.lastKey);
        } else if val == "sfx" {
          next := Scan(NoSection, SfxAssets, 0, s.lastKey);
        } else if s.section == NoSection {
        } else if s.target != NoTarget {
          if s.lastKey == [] {
            next := Scan(s.section, s.target, s.idx, Truncate(val, KEY_SIZE));
          } else {
            var w := Write(s.target, s.idx, Asset(Truncate(s.lastKey, NAME_SIZE), Truncate(val, PATH_SIZE)));
            Store(w);
            assert [w][..0] == [];
            next := Scan(s.section, s.target, s.idx + 1, "");
          }
        }
      }
    }

    /** `load_assets_yaml(filename)`; `file` is `None` when it cannot be
        opened. Returns false only then, leaving the arrays untouched. */
    method Load(file: Option<seq<YamlEvent>>) returns (ok: bool)
      requires Valid()
      modifies tiles, sprites, music, sfx
      ensures ok == file.Some?
      ensures file.None? ==> Contents() == old(Contents())
      ensures file.Some? ==> Contents() == Commit(old(Contents()), Writes(file.value))
    {
      if file.None? {
        return false;
      }
      var events := file.value;
      var s := START;
      var i := 0;
      ghost var done: seq<Write> := [];
      while i < |events| && events[i] != StreamEnd
        invariant i <= |events|
        invariant ScannedUpTo(events, i, s, done)
        invariant Contents() == Commit(old(Contents()), done)
        decreases |events| - i
      {
        ghost var before := Contents();
        ghost var w := Step(s, events[i]).1;
        ScanStep(events, i, s, done);
        s := Handle(s, events[i]);
        CommitAppend(old(Contents()), done, w);
        done := done + Stored(w);
        i := i + 1;
      }
      ScanEnd(events, i, s, done);
      return true;
    }

    /** `search_assets(assets, name)`: the path of the first of the
        `MAX_ASSETS` entries whose name is `name`, or `None` (NULL). */
    static method Search(assets: array<Asset>, name: string) returns (r: Option<string>)
      requires assets.Length >= MAX_ASSETS
      ensures r.None? <==> forall k :: 0 <= k < MAX_ASSETS ==> assets[k].name != name
      ensures r.Some? ==> exists k :: (0 <= k < MAX_ASSETS && assets[k].name == name && r.value == assets[k].path &&
        forall j :: 0 <= j < k ==> assets[j].name != name)
    {
      var i := 0;
      while i < MAX_ASSETS
        invariant i <= MAX_ASSETS
        invariant forall j :: 0 <= j < i ==> assets[j].name != name
      {
        if assets[i].name == name {
          return Some(assets[i].path);
        }
        i := i + 1;
      }
      return None;
    }
  }

  /** How far the loop has got: `done` holds the entries of the first `i`
      events, and the rest of the file carries on from state `s`. */
  ghost predicate ScannedUpTo(events: seq<YamlEvent>, i: nat, s: Scan, done: seq<Write>) {
    i <= |events| && (forall k :: 0 <= k < i ==> events[k] != StreamEnd)
    && Writes(events) == done + Feed(s, events[i..]).1
  }

  lemma ScanStep(events: seq<YamlEvent>, i: nat, s: Scan, done: seq<Write>)
    requires i < |events| && events[i] != StreamEnd && ScannedUpTo(events, i, s, done)
    ensures ScannedUpTo(events, i + 1, Step(s, events[i]).0, done + Stored(Step(s, events[i]).1))
  {
    assert events[i..][1..] == events[i + 1..];
  }

  lemma ScanEnd(events: seq<YamlEvent>, i: nat, s: Scan, done: seq<Write>)
    requires ScannedUpTo(events, i, s, done) && (i == |events| || events[i] == StreamEnd)
    ensures Writes(events) == done
  {
  }

  lemma CommitAppend(t: Tables, done: seq<Write>, w: Option<Write>)
    ensures Commit(t, done + Stored(w)) == Commit(Commit(t, done), Stored(w))
  {
    if w.Some? {
      assert (done + [w.value])[..|done|] == done;
      assert [w.value][..0] == [];
    } else {
      assert done + [] == done;
    }
  }
}
