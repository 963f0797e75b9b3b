// The pure helpers of the mod extractor (tools/forgeExtractor.py): colour
// splitting and parsing, resource-id to path builders, the comma-key
// permutation lookup and the blockstate path test `jsonPath`.

module ForgeStrings {
  import opened Wrappers
  import opened PyStrings
  import Bits

  // ---------------------------------------------------------------------
  // Colours
  // ---------------------------------------------------------------------

  /** `decToRGB`: `c >> 16` is Python's floor shift, which is Dafny's
      Euclidean division by 65536; `//` and `%` by 256 are floor operations. */
  function DecToRGB(c: int): (rgb: (int, int, int))
    ensures 0 <= rgb.1 < 256 && 0 <= rgb.2 < 256
    ensures rgb.0 * 65536 + rgb.1 * 256 + rgb.2 == c
    ensures 0 <= c < 0x100_0000 <==> 0 <= rgb.0 < 256
  {
    var r := c / 65536;
    var rest := c - r * 65536;
    (r, rest / 256, rest % 256)
  }

  /** Packing three bytes and splitting them again gives the bytes back. */
  lemma DecToRGBInverse(r: int, g: int, b: int)
    requires 0 <= r < 256 && 0 <= g < 256 && 0 <= b < 256
    ensures DecToRGB(r * 65536 + g * 256 + b) == (r, g, b)
  {
    var c := r * 65536 + g * 256 + b;
    Bits.DivModUnique(c, 65536, r, g * 256 + b);
    Bits.DivModUnique(g * 256 + b, 256, g, b);
  }

  predicate IsHexDigit(ch: char) {
    ('0' <= ch <= '9') || ('a' <= ch <= 'f') || ('A' <= ch <= 'F')
  }

  function HexDigitValue(ch: char): (v: nat)
    requires IsHexDigit(ch)
    ensures v < 16
  {
    if '0' <= ch <= '9' then ch as int - '0' as int
    else if 'a' <= ch <= 'f' then ch as int - 'a' as int + 10
    else ch as int - 'A' as int + 10
  }

  /** The lower-case character `"%x"` prints for a digit below 16. */
  function HexChar(d: nat): (ch: char)
    requires d < 16
    ensures IsHexDigit(ch) && HexDigitValue(ch) == d
  {
    if d < 10 then ('0' as int + d) as char else ('a' as int + d - 10) as char
  }

  /** `"%0{w}x" % n`: the low `w` hex digits of `n`, zero-padded. */
  function FormatHex(n: nat, w: nat): (s: string)
    ensures |s| == w
    ensures forall k :: 0 <= k < |s| ==> IsHexDigit(s[k])
  {
    if w == 0 then "" else FormatHex(n / 16, w - 1) + [HexChar(n % 16)]
  }

  /** The whitespace Python's `int()` strips, below U+0080: space, tab,
      the line ends and the file, group, record and unit separators. */
  predicate IsSpace(ch: char) {
    ch == ' ' || ch == '\t' || ch == '\n' || ch == '\r' || ch == '\U{000B}' || ch == '\U{000C}' ||
    ch == '\U{001C}' || ch == '\U{001D}' || ch == '\U{001E}' || ch == '\U{001F}'
  }

  function StripLeft(t: string): (u: string)
    ensures |u| <= |t|
    ensures u == [] || !IsSpace(u[0])
    decreases |t|
  {
    if t != [] && IsSpace(t[0]) then StripLeft(t[1..]) else t
  }

  function StripRight(t: string): (u: string)
    ensures |u| <= |t|
    ensures u == [] || !IsSpace(u[|u| - 1])
    decreases |t|
  {
    if t != [] && IsSpace(t[|t| - 1]) then StripRight(t[..|t| - 1]) else t
  }

  /** `int(t, 16)` for a field of at most two characters: surrounding
      whitespace, an optional sign, then hex digits. In two characters
      Python's `0x` prefix and `_` digit separators can never be valid. */
  function ParseHexField(t: string): (r: Result<int>)
    requires |t| <= 2
    ensures r.Ok? ==> -15 <= r.value < 256
    ensures |t| == 2 && IsHexDigit(t[0]) && IsHexDigit(t[1]) ==>
      r == Ok(16 * HexDigitValue(t[0]) + HexDigitValue(t[1]))
    ensures t == [] ==> r == Err(ValueError)
  {
    var u := StripRight(StripLeft(t));
    if u == [] then Err(ValueError)
    else if u[0] == '+' || u[0] == '-' then
      if |u| == 2 && IsHexDigit(u[1]) then
        Ok(if u[0] == '-' then -(HexDigitValue(u[1]) as int) else HexDigitValue(u[1]))
      else Err(ValueError)
    else if |u| == 1 && IsHexDigit(u[0]) then Ok(HexDigitValue(u[0]))
    else if |u| == 2 && IsHexDigit(u[0]) && IsHexDigit(u[1]) then
      Ok(16 * HexDigitValue(u[0]) + HexDigitValue(u[1]))
    else Err(ValueError)
  }

  /** Python's `s[i:j]` for `0 <= i <= j`: bounds past the end are clipped. */
  function Slice(s: string, i: nat, j: nat): (t: string)
    requires i <= j
    ensures |t| <= j - i
    ensures j <= |s| ==> t == s[i..j]
  {
    var hi := if j <= |s| then j else |s|;
    var lo := if i <= hi then i else hi;
    s[lo..hi]
  }

  /** `hexToRGB`: three two-character fields at offsets 0, 2 and 4; the
      first field `int` rejects raises `ValueError`. */
  function HexToRGB(s: string): (r: Result<(int, int, int)>)
    ensures |s| < 5 ==> r == Err(ValueError)
    ensures r.Ok? ==> -15 <= r.value.0 < 256 && -15 <= r.value.1 < 256 && -15 <= r.value.2 < 256
  {
    var red :- ParseHexField(Slice(s, 0, 2));
    var green :- ParseHexField(Slice(s, 2, 4));
    var blue :- ParseHexField(Slice(s, 4, 6));
    Ok((red, green, blue))
  }

  /** Six hex digits at the front are read as three bytes, whatever follows. */
  lemma HexToRGBDigits(s: string)
    requires |s| >= 6 && forall k :: 0 <= k < 6 ==> IsHexDigit(s[k])
    ensures HexToRGB(s) == Ok((16 * HexDigitValue(s[0]) + HexDigitValue(s[1]),
                               16 * HexDigitValue(s[2]) + HexDigitValue(s[3]),
                               16 * HexDigitValue(s[4]) + HexDigitValue(s[5])))
  {
    FieldAt(s, 0);
    FieldAt(s, 2);
    FieldAt(s, 4);
    HexToRGBOfFields(s, ParseHexField(Slice(s, 0, 2)).value, ParseHexField(Slice(s, 2, 4)).value,
      ParseHexField(Slice(s, 4, 6)).value);
  }

  lemma FieldAt(s: string, i: nat)
    requires i + 2 <= |s|
    ensures Slice(s, i, i + 2) == [s[i], s[i + 1]]
  {
  }

  lemma HexToRGBOfFields(s: string, red: int, green: int, blue: int)
    requires ParseHexField(Slice(s, 0, 2)) == Ok(red)
    requires ParseHexField(Slice(s, 2, 4)) == Ok(green)
    requires ParseHexField(Slice(s, 4, 6)) == Ok(blue)
    ensures HexToRGB(s) == Ok((red, green, blue))
  {
  }

  /** Two formatted hex digits read back as the byte. */
  lemma FormatHexByte(n: nat)
    requires n < 256
    ensures 16 * HexDigitValue(FormatHex(n, 2)[0]) + HexDigitValue(FormatHex(n, 2)[1]) == n
  {
    assert FormatHex(n, 2) == FormatHex(n / 16 / 16, 0) + [HexChar(n / 16 % 16)] + [HexChar(n % 16)];
  }

  /** Formatting splits at digit boundaries: high part, then `k` low digits. */
  lemma {:induction false} FormatHexConcat(a: nat, b: nat, w: nat, k: nat)
    requires b < Bits.Pow2(4 * k)
    ensures FormatHex(a * Bits.Pow2(4 * k) + b, w + k) == FormatHex(a, w) + FormatHex(b, k)
    decreases k
  {
    if k > 0 {
      var n := a * Bits.Pow2(4 * k) + b;
      HexPlace(a, b, k);
      var high, low := FormatHex(a, w), FormatHex(b / 16, k - 1);
      var last := [HexChar(b % 16)];
      FormatHexConcat(a, b / 16, w, k - 1);
      assert FormatHex(n / 16, w + k - 1) == high + low;
      assert FormatHex(n, w + k) == (high + low) + last;
      assert FormatHex(b, k) == low + last;
      assert (high + low) + last == high + (low + last);
    }
  }

  /** Dropping the lowest hex digit of `a * 16^k + b` drops the lowest digit of `b`. */
  lemma HexPlace(a: nat, b: nat, k: nat)
    requires k > 0 && b < Bits.Pow2(4 * k)
    ensures b / 16 < Bits.Pow2(4 * (k - 1))
    ensures (a * Bits.Pow2(4 * k) + b) / 16 == a * Bits.Pow2(4 * (k - 1)) + b / 16
    ensures (a * Bits.Pow2(4 * k) + b) % 16 == b % 16
  {
    var p := Bits.Pow2(4 * (k - 1));
    Bits.Pow2Add(4 * (k - 1), 4);
    Bits.Pow2Four();
    assert Bits.Pow2(4 * k) == p * 16;
    assert a * Bits.Pow2(4 * k) == 16 * (a * p);
    var n := a * Bits.Pow2(4 * k) + b;
    assert n == 16 * (a * p + b / 16) + b % 16;
    Bits.DivModUnique(n, 16, a * p + b / 16, b % 16);
  }

  /** Six formatted digits are the three formatted bytes of `decToRGB`. */
  lemma FormatHexSix(c: nat)
    requires c < 0x100_0000
    ensures FormatHex(c, 6) ==
      FormatHex(DecToRGB(c).0, 2) + FormatHex(DecToRGB(c).1, 2) + FormatHex(DecToRGB(c).2, 2)
  {
    var rgb := DecToRGB(c);
    var r, g, b := rgb.0, rgb.1, rgb.2;
    Bits.Pow2Sixteen();
    assert Bits.Pow2(8) == 256;
    var low := g * 256 + b;
    assert low < Bits.Pow2(16);
    assert c == r * Bits.Pow2(16) + low;
    FormatHexConcat(g, b, 2, 2);
    FormatHexConcat(r, low, 2, 4);
  }

  /** `hexToRGB` inverts six-digit zero-padded hex formatting, and agrees
      with `decToRGB` on every 24-bit colour. */
  lemma HexToRGBInvertsFormat(c: nat)
    requires c < 0x100_0000
    ensures HexToRGB(FormatHex(c, 6)) == Ok(DecToRGB(c))
  {
    var rgb := DecToRGB(c);
    FormatHexSix(c);
    FormatHexByte(rgb.0);
    FormatHexByte(rgb.1);
    FormatHexByte(rgb.2);
    HexToRGBOfPairs(FormatHex(rgb.0, 2), FormatHex(rgb.1, 2), FormatHex(rgb.2, 2), rgb.0, rgb.1, rgb.2);
  }

  /** Three pairs of hex digits read back as their values. */
  lemma HexToRGBOfPairs(p: string, q: string, t: string, r: int, g: int, b: int)
    requires |p| == 2 && |q| == 2 && |t| == 2
    requires IsHexDigit(p[0]) && IsHexDigit(p[1]) && r == 16 * HexDigitValue(p[0]) + HexDigitValue(p[1])
    requires IsHexDigit(q[0]) && IsHexDigit(q[1]) && g == 16 * HexDigitValue(q[0]) + HexDigitValue(q[1])
    requires IsHexDigit(t[0]) && IsHexDigit(t[1]) && b == 16 * HexDigitValue(t[0]) + HexDigitValue(t[1])
    ensures HexToRGB(p + q + t) == Ok((r, g, b))
  {
    SixOfThree(p, q, t);
    HexToRGBDigits(p + q + t);
  }

  lemma SixOfThree(p: string, q: string, t: string)
    requires |p| == 2 && |q| == 2 && |t| == 2
    ensures var s := p + q + t;
      |s| == 6 && s[0] == p[0] && s[1] == p[1] && s[2] == q[0] && s[3] == q[1] && s[4] == t[0] && s[5] == t[1]
  {
  }

  // ---------------------------------------------------------------------
  // Comma-key permutations
  // ---------------------------------------------------------------------

  /** `[x] + p` for every `p` in `ps`, in order. */
  function Prefixed<T>(x: T, ps: seq<seq<T>>): (r: seq<seq<T>>)
    ensures |r| == |ps|
    ensures forall k :: 0 <= k < |r| ==> r[k] == [x] + ps[k]
  {
    seq(|ps|, k requires 0 <= k < |ps| => [x] + ps[k])
  }

  /** `s` without position `i`. */
  function Without<T>(s: seq<T>, i: nat): (r: seq<T>)
    requires i < |s|
    ensures |r| == |s| - 1
    ensures multiset(r) + multiset{s[i]} == multiset(s)
  {
    assert s == s[..i] + [s[i]] + s[i + 1..];
    s[..i] + s[i + 1..]
  }

  /** `itertools.permutations(s)`: arrangements in lexicographic order of
      the positions, so the first one is `s` itself. */
  function Permutations<T>(s: seq<T>): seq<seq<T>>
    decreases |s|, 1, 0
  {
    if s == [] then [[]] else PermutationsFrom(s, 0)
  }

  /** The arrangements whose first element is taken from position `i` or later. */
  function PermutationsFrom<T>(s: seq<T>, i: nat): seq<seq<T>>
    requires i <= |s|
    decreases |s|, 0, |s| - i
  {
    if i == |s| then [] else Prefixed(s[i], Permutations(Without(s, i))) + PermutationsFrom(s, i + 1)
  }

  /** Every arrangement uses the elements of `s`, each as often as `s` does. */
  lemma {:induction false} PermutationsRearrange<T>(s: seq<T>, p: seq<T>)
    requires p in Permutations(s)
    ensures multiset(p) == multiset(s)
    decreases |s|, 1, 0
  {
    if s != [] {
      PermutationsFromRearrange(s, 0, p);
    }
  }

  lemma {:induction false} PermutationsFromRearrange<T>(s: seq<T>, i: nat, p: seq<T>)
    requires i <= |s| && p in PermutationsFrom(s, i)
    ensures multiset(p) == multiset(s)
    decreases |s|, 0, |s| - i
  {
    if i < |s| {
      var front := Prefixed(s[i], Permutations(Without(s, i)));
      if p in front {
        var k :| 0 <= k < |front| && front[k] == p;
        var rest := Permutations(Without(s, i))[k];
        PermutationsRearrange(Without(s, i), rest);
        assert p == [s[i]] + rest;
      } else {
        PermutationsFromRearrange(s, i + 1, p);
      }
    }
  }

  /** The identity arrangement comes first. */
  lemma {:induction false} PermutationsStartWithIdentity<T>(s: seq<T>)
    ensures |Permutations(s)| >= 1 && Permutations(s)[0] == s
    decreases |s|
  {
    if s != [] {
      PermutationsStartWithIdentity(Without(s, 0));
      assert Without(s, 0) == s[1..];
      assert [s[0]] + s[1..] == s;
    }
  }

  /** The candidate keys `keyPermutation` tries: each arrangement of the
      comma-separated parts of `key`, joined with commas again. */
  function CommaPermutations(key: string): (r: seq<string>)
    ensures |r| >= 1 && r[0] == key
  {
    var parts := Split(key, ',');
    PermutationsStartWithIdentity(parts);
    JoinSplit(key, ',');
    JoinEach(Permutations(parts), ",")
  }

  /** Each arrangement joined with `sep`, in order. */
  function JoinEach(ps: seq<seq<string>>, sep: string): (r: seq<string>)
    ensures |r| == |ps|
    ensures forall k :: 0 <= k < |ps| ==> r[k] == Join(ps[k], sep)
  {
    seq(|ps|, k requires 0 <= k < |ps| => Join(ps[k], sep))
  }

  /** `key` and `k` name the same comma-separated settings in some order. */
  ghost predicate SameSettings(key: string, k: string) {
    multiset(Split(k, ',')) == multiset(Split(key, ','))
  }

  /** Every candidate lists the same settings as `key`. */
  lemma CandidatesAreRearrangements(key: string, i: nat)
    requires i < |CommaPermutations(key)|
    ensures SameSettings(key, CommaPermutations(key)[i])
  {
    var parts := Split(key, ',');
    var p := Permutations(parts)[i];
    SplitPieces(key, ',');
    PermutationsRearrange(parts, p);
    forall j | 0 <= j < |p| ensures ',' !in p[j] {
      assert p[j] in multiset(parts);
    }
    assert |p| == |parts| by {
      assert |multiset(p)| == |multiset(parts)|;
    }
    SplitJoin(p, ',');
  }

  /** The first candidate that is a key, if any. */
  function FirstIn(cands: seq<string>, keys: set<string>): Option<string>
    decreases |cands|
  {
    if cands == [] then None
    else if cands[0] in keys then Some(cands[0])
    else FirstIn(cands[1..], keys)
  }

  /** `FirstIn` finds a key exactly when there is one, and it is the earliest. */
  lemma {:induction false} FirstInSound(cands: seq<string>, keys: set<string>)
    ensures FirstIn(cands, keys).None? <==> forall k :: 0 <= k < |cands| ==> cands[k] !in keys
    ensures FirstIn(cands, keys).Some? ==>
      exists i :: 0 <= i < |cands| && cands[i] == FirstIn(cands, keys).value &&
        cands[i] in keys && forall j :: 0 <= j < i ==> cands[j] !in keys
    decreases |cands|
  {
    if cands != [] && cands[0] !in keys {
      FirstInSound(cands[1..], keys);
      if FirstIn(cands, keys).Some? {
        var i :| 0 <= i < |cands[1..]| && cands[1..][i] == FirstIn(cands, keys).value &&
          cands[1..][i] in keys && forall j :: 0 <= j < i ==> cands[1..][j] !in keys;
        assert cands[i + 1] == cands[1..][i];
        forall j | 0 <= j < i + 1 ensures cands[j] !in keys {
          if j > 0 {
            assert cands[j] == cands[1..][j - 1];
          }
        }
      }
    }
  }

  /** `keyPermutation(key, json)`: scan the candidates and return the first
      that is a key of the dictionary; fall off the end with `None`. */
  method KeyPermutation(key: string, keys: set<string>) returns (r: Option<string>)
    ensures r == FirstIn(CommaPermutations(key), keys)
  {
    var cands := CommaPermutations(key);
    var i := 0;
    assert cands[0..] == cands;
    while i < |cands|
      invariant i <= |cands|
      invariant FirstIn(cands[i..], keys) == FirstIn(cands, keys)
    {
      FirstInStep(cands, i, keys);
      if cands[i] in keys {
        return Some(cands[i]);
      }
      i := i + 1;
    }
    FirstInStep(cands, i, keys);
    return None;
  }

  /** One candidate of the scan. */
  lemma FirstInStep(cands: seq<string>, i: nat, keys: set<string>)
    requires i <= |cands|
    ensures i == |cands| ==> FirstIn(cands[i..], keys) == None
    ensures i < |cands| && cands[i] in keys ==> FirstIn(cands[i..], keys) == Some(cands[i])
    ensures i < |cands| && cands[i] !in keys ==> FirstIn(cands[i..], keys) == FirstIn(cands[i + 1..], keys)
  {
    if i < |cands| {
      assert cands[i..][0] == cands[i];
      assert cands[i..][1..] == cands[i + 1..];
    }
  }

  /** What `keyPermutation` promises: a key of the dictionary listing the
      same settings, the key itself when present, and `None` only when no
      arrangement is a key. */
  lemma KeyPermutationMeaning(key: string, keys: set<string>)
    ensures FirstIn(CommaPermutations(key), keys).Some? ==>
      FirstIn(CommaPermutations(key), keys).value in keys &&
      SameSettings(key, FirstIn(CommaPermutations(key), keys).value)
    ensures key in keys ==> FirstIn(CommaPermutations(key), keys) == Some(key)
    ensures FirstIn(CommaPermutations(key), keys).None? <==>
      forall k :: 0 <= k < |CommaPermutations(key)| ==> CommaPermutations(key)[k] !in keys
  {
    var cands := CommaPermutations(key);
    FirstInSound(cands, keys);
    if FirstIn(cands, keys).Some? {
      var i :| 0 <= i < |cands| && cands[i] == FirstIn(cands, keys).value && cands[i] in keys &&
        forall j :: 0 <= j < i ==> cands[j] !in keys;
      CandidatesAreRearrangements(key, i);
    }
  }

  // ---------------------------------------------------------------------
  // Resource ids
  // ---------------------------------------------------------------------

  /** `"assets/%s/<kind>/%s<ext>" % (mod, path)`. */
  function AssetPath(mod: string, kind: string, path: string, ext: string): string {
    "assets/" + mod + "/" + kind + "/" + path + ext
  }

  /** `textureId2Path`: "mod:a/b/f" names "assets/mod/textures/a/b/f.png";
      without exactly one colon the mod is "minecraft" and the text before
      the first colon is the path. */
  function TextureIdToPath(textureId: string): string {
    if textureId == [] then ""
    else
      var split := Split(textureId, ':');
      if |split| == 2 then TexturePath(split[0], split[1]) else TexturePath("minecraft", split[0])
  }

  /** The tail of `textureId2Path`: fewer than two path segments give "". */
  function TexturePath(mod: string, id: string): string {
    var t := Split(id, '/');
    if |t| >= 2 then AssetPath(mod, "textures", Join(t[..|t| - 1], "/") + "/" + t[|t| - 1], ".png")
    else ""
  }

  /** Splitting "mod:path" at its one colon. */
  lemma SplitModId(mod: string, path: string)
    requires ':' !in mod && ':' !in path
    ensures Split(mod + ":" + path, ':') == [mod, path]
  {
    assert Join([mod, path], [':']) == mod + ":" + path;
    SplitJoin([mod, path], ':');
  }

  /** Folders and file name rejoin to the path. */
  lemma RejoinPath(path: string)
    requires '/' in path
    ensures var t := Split(path, '/'); |t| >= 2 && Join(t[..|t| - 1], "/") + "/" + t[|t| - 1] == path
  {
    var t := Split(path, '/');
    SplitPieces(path, '/');
    JoinLast(t, "/");
    JoinSplit(path, '/');
  }

  /** A path with a folder is kept whole; one without gives "". */
  lemma TexturePathCases(mod: string, path: string)
    ensures '/' in path ==> TexturePath(mod, path) == AssetPath(mod, "textures", path, ".png")
    ensures '/' !in path ==> TexturePath(mod, path) == ""
  {
    SplitPieces(path, '/');
    if '/' in path {
      RejoinPath(path);
    }
  }

  /** A texture id with a mod and at least one folder. */
  lemma TextureIdWithMod(mod: string, path: string)
    requires ':' !in mod && ':' !in path && '/' in path
    ensures TextureIdToPath(mod + ":" + path) == AssetPath(mod, "textures", path, ".png")
  {
    SplitModId(mod, path);
    TexturePathCases(mod, path);
  }

  /** A texture id without a colon belongs to "minecraft". */
  lemma TextureIdDefaultMod(path: string)
    requires ':' !in path && '/' in path
    ensures TextureIdToPath(path) == AssetPath("minecraft", "textures", path, ".png")
  {
    NoSeparatorSplit(path, ':');
    TexturePathCases("minecraft", path);
  }

  /** No folder anywhere in the id: the empty path. */
  lemma TextureIdWithoutFolder(textureId: string)
    requires '/' !in textureId
    ensures TextureIdToPath(textureId) == ""
  {
    if textureId != [] {
      var split := Split(textureId, ':');
      JoinSplit(textureId, ':');
      PartOfJoin(split, [':'], 0);
      TexturePathCases("minecraft", split[0]);
      if |split| == 2 {
        PartOfJoin(split, [':'], 1);
        TexturePathCases(split[0], split[1]);
      }
    }
  }

  /** Every character of a piece occurs in the joined string. */
  lemma {:induction false} PartOfJoin(parts: seq<string>, sep: string, k: nat)
    requires k < |parts|
    ensures forall x :: x in parts[k] ==> x in Join(parts, sep)
    decreases |parts|
  {
    if |parts| > 1 {
      if k > 0 {
        PartOfJoin(parts[1..], sep, k - 1);
        assert parts[1..][k - 1] == parts[k];
      }
      assert Join(parts, sep) == parts[0] + sep + Join(parts[1..], sep);
    }
  }

  /** `modelIdToPath`: only "mod:..." ids are accepted. */
  function ModelIdToPath(modelId: string): string {
    if modelId == [] then ""
    else
      var split := Split(modelId, ':');
      if |split| == 2 then ModelPath(split[0], split[1]) else ""
  }

  /** The tail of `modelIdToPath`. Its second test repeats `len(split) >= 2`
      where `textureId2Path` tests the segment count, so a path without a
      folder is still formatted, around an empty folder list. */
  function ModelPath(mod: string, id: string): string {
    var t := Split(id, '/');
    AssetPath(mod, "models", Join(t[..|t| - 1], "/") + "/" + t[|t| - 1], ".json")
  }

  /** "mod:folders/name" names "assets/mod/models/folders/name.json". */
  lemma ModelIdWithMod(mod: string, path: string)
    requires ':' !in mod && ':' !in path && '/' in path
    ensures ModelIdToPath(mod + ":" + path) == AssetPath(mod, "models", path, ".json")
  {
    SplitModId(mod, path);
    RejoinPath(path);
  }

  /** "mod:name" keeps an empty folder: "assets/mod/models//name.json". */
  lemma ModelIdWithoutFolder(mod: string, name: string)
    requires ':' !in mod && ':' !in name && '/' !in name
    ensures ModelIdToPath(mod + ":" + name) == AssetPath(mod, "models", "/" + name, ".json")
  {
    SplitModId(mod, name);
    NoSeparatorSplit(name, '/');
  }

  /** Ids without exactly one colon have neither a model path nor an overview name. */
  lemma ModelIdNeedsOneColon(modelId: string)
    requires |Split(modelId, ':')| != 2
    ensures ModelIdToPath(modelId) == "" && ModelIdToOverviewId(modelId) == ""
  {
  }

  /** `modelIdtoOverviewId`: "mod:folders/name" becomes "block_mod__name". */
  function ModelIdToOverviewId(modelId: string): string {
    if modelId == [] then ""
    else
      var split := Split(modelId, ':');
      if |split| == 2 then OverviewName(split[0], split[1]) else ""
  }

  /** The tail of `modelIdtoOverviewId`: the last path segment names the block. */
  function OverviewName(mod: string, id: string): string {
    var t := Split(id, '/');
    "block_" + mod + "__" + t[|t| - 1]
  }

  /** The overview name keeps the mod and the last path segment. */
  lemma OverviewIdOf(mod: string, folders: seq<string>, name: string)
    requires ':' !in mod && ':' !in name && '/' !in name
    requires forall k :: 0 <= k < |folders| ==> ':' !in folders[k] && '/' !in folders[k]
    ensures ModelIdToOverviewId(mod + ":" + Join(folders + [name], "/")) == "block_" + mod + "__" + name
  {
    var parts := folders + [name];
    var path := Join(parts, "/");
    PlainSegments(folders, name);
    JoinAvoids(parts, "/", ':');
    SplitModId(mod, path);
    SplitJoin(parts, '/');
    OverviewNameOf(mod, path, parts);
    OverviewIdOfSplit(mod, path);
  }

  lemma PlainSegments(folders: seq<string>, name: string)
    requires ':' !in name && '/' !in name
    requires forall k :: 0 <= k < |folders| ==> ':' !in folders[k] && '/' !in folders[k]
    ensures forall k :: 0 <= k < |folders + [name]| ==>
      '/' !in (folders + [name])[k] && ':' !in (folders + [name])[k]
  {
    var parts := folders + [name];
    forall k | 0 <= k < |parts| ensures '/' !in parts[k] && ':' !in parts[k] {
      if k < |folders| {
        assert parts[k] == folders[k];
      }
    }
  }

  lemma OverviewNameOf(mod: string, id: string, parts: seq<string>)
    requires |parts| >= 1 && Split(id, '/') == parts
    ensures OverviewName(mod, id) == "block_" + mod + "__" + parts[|parts| - 1]
  {
  }

  lemma OverviewIdOfSplit(mod: string, path: string)
    requires Split(mod + ":" + path, ':') == [mod, path]
    ensures ModelIdToOverviewId(mod + ":" + path) == OverviewName(mod, path)
  {
  }

  /** A character in neither the pieces nor the separator is not in the join. */
  lemma {:induction false} JoinAvoids(parts: seq<string>, sep: string, c: char)
    requires c !in sep
    requires forall k :: 0 <= k < |parts| ==> c !in parts[k]
    ensures c !in Join(parts, sep)
    decreases |parts|
  {
    if |parts| > 1 {
      JoinAvoids(parts[1..], sep, c);
      assert Join(parts, sep) == parts[0] + sep + Join(parts[1..], sep);
    }
  }

  // ---------------------------------------------------------------------
  // Blockstate paths
  // ---------------------------------------------------------------------

  /** A decoded JSON document: an object, a list, or any other value. */
  datatype Json = Object(fields: map<string, Json>) | List(items: seq<Json>) | Scalar

  /** The test `jsonPath` makes on every level: `key` or one of its comma
      rearrangements is a key of the object. */
  predicate HasKeyLike(fields: map<string, Json>, key: string) {
    key in fields || exists k :: k in fields && k in CommaPermutations(key)
  }

  /** `jsonPath` as written: on the last step a list answers False, and
      any other non-object raises `AttributeError` at `.keys()`; on earlier
      steps the value found under `key` itself is followed, so a match that
      is only a rearrangement raises `KeyError`. */
  function JsonPathAsWritten(json: Json, path: seq<string>): (r: Result<bool>)
    ensures path == [] ==> r == Err(IndexError)
    decreases |path|
  {
    if path == [] then Err(IndexError)
    else
      var key := path[0];
      if |path| == 1 then
        match json
        case List(_) => Ok(false)
        case Scalar => Err(AttributeError)
        case Object(fields) => Ok(HasKeyLike(fields, key))
      else
        match json
        case Object(fields) =>
          if !HasKeyLike(fields, key) then Ok(false)
          else if key in fields then JsonPathAsWritten(fields[key], path[1..])
          else Err(KeyError)
        case _ => Err(AttributeError)
  }

  lemma PermutationsOfOne<T>(x: T)
    ensures Permutations([x]) == [[x]]
  {
    var s := [x];
    var e: seq<T> := [];
    assert Without(s, 0) == e;
    assert Permutations(e) == [e];
    var front := Prefixed(x, [e]);
    assert |front| == 1 && front[0] == [x] + e == [x];
    assert front == [[x]];
    assert PermutationsFrom(s, 1) == [];
    assert Permutations(s) == front + [];
  }

  lemma PermutationsOfTwo<T>(x: T, y: T)
    ensures Permutations([x, y]) == [[x, y], [y, x]]
  {
    var s := [x, y];
    WithoutOfTwo(x, y);
    FirstOfTwo(x, y);
    SecondOfTwo(x, y);
    PermutationsFromStep(s, 0, x, [y], [[y, x]]);
    PermutationsNonEmpty(s);
    assert [[x, y]] + [[y, x]] == [[x, y], [y, x]];
  }

  lemma PermutationsNonEmpty<T>(s: seq<T>)
    requires s != []
    ensures Permutations(s) == PermutationsFrom(s, 0)
  {
  }

  lemma WithoutOfTwo<T>(x: T, y: T)
    ensures Without([x, y], 0) == [y] && Without([x, y], 1) == [x]
  {
  }

  lemma FirstOfTwo<T>(x: T, y: T)
    ensures Prefixed(x, Permutations([y])) == [[x, y]]
  {
    PermutationsOfOne(y);
    PrefixedOne(x, [y]);
    assert [x] + [y] == [x, y];
  }

  lemma SecondOfTwo<T>(x: T, y: T)
    ensures PermutationsFrom([x, y], 1) == [[y, x]]
  {
    var s := [x, y];
    var none: seq<seq<T>> := [];
    WithoutOfTwo(x, y);
    PermutationsOfOne(x);
    PrefixedOne(y, [x]);
    assert PermutationsFrom(s, 2) == none;
    PermutationsFromStep(s, 1, y, [x], none);
    assert [y] + [x] == [y, x];
    assert [[y, x]] + none == [[y, x]];
  }

  /** One step of `PermutationsFrom`, with its parts named. */
  lemma PermutationsFromStep<T>(s: seq<T>, i: nat, x: T, rest: seq<T>, later: seq<seq<T>>)
    requires i < |s| && s[i] == x && Without(s, i) == rest && PermutationsFrom(s, i + 1) == later
    ensures PermutationsFrom(s, i) == Prefixed(x, Permutations(rest)) + later
  {
  }

  lemma PrefixedOne<T>(x: T, p: seq<T>)
    ensures Prefixed(x, [p]) == [[x] + p]
  {
  }

  /** The two arrangements of two settings. */
  lemma CommaPermutationsOfPair(a: string, b: string)
    requires ',' !in a && ',' !in b
    ensures CommaPermutations(a + "," + b) == [a + "," + b, b + "," + a]
  {
    var key := a + "," + b;
    JoinTwo(a, b);
    JoinTwo(b, a);
    SplitJoin([a, b], ',');
    PermutationsOfTwo(a, b);
    CommaPermutationsVia(key, [a, b], [[a, b], [b, a]]);
    var r := JoinEach([[a, b], [b, a]], ",");
    assert r[0] == a + "," + b && r[1] == b + "," + a;
    assert r == [a + "," + b, b + "," + a];
  }

  lemma CommaPermutationsVia(key: string, parts: seq<string>, ps: seq<seq<string>>)
    requires Split(key, ',') == parts && Permutations(parts) == ps
    ensures CommaPermutations(key) == JoinEach(ps, ",")
  {
  }

  lemma JoinTwo(a: string, b: string)
    ensures Join([a, b], ",") == a + "," + b
  {
    assert [a, b][1..] == [b];
  }

  /** A rearranged key on an inner step: `jsonPath` accepts it and then
      indexes with the key as spelt, which is not there. For instance the
      document {"b,a": {"c": ...}} and the path ["a,b", "c"]. */
  lemma AsWrittenRaisesOnRearrangedKey(a: string, b: string, next: string, inner: Json)
    requires ',' !in a && ',' !in b && a != b
    ensures JsonPathAsWritten(Object(map[b + "," + a := Object(map[next := inner])]), [a + "," + b, next])
            == Err(KeyError)
  {
    var key, other := a + "," + b, b + "," + a;
    var fields := map[other := Object(map[next := inner])];
    CommaPermutationsOfPair(a, b);
    assert other in CommaPermutations(key);
    assert key != other by {
      SwappedPairDiffers(a, b);
    }
    AsWrittenInnerKeyError(fields, key, [next]);
  }

  lemma SwappedPairDiffers(a: string, b: string)
    requires ',' !in a && ',' !in b && a != b
    ensures a + "," + b != b + "," + a
  {
    JoinTwo(a, b);
    JoinTwo(b, a);
    SplitJoin([a, b], ',');
    SplitJoin([b, a], ',');
  }

  lemma AsWrittenInnerKeyError(fields: map<string, Json>, key: string, rest: seq<string>)
    requires |rest| >= 1 && HasKeyLike(fields, key) && key !in fields
    ensures JsonPathAsWritten(Object(fields), [key] + rest) == Err(KeyError)
  {
    assert ([key] + rest)[1..] == rest;
  }

  /** The key `jsonPath` evidently means to follow: the one the test matched. */
  function MatchedKey(fields: map<string, Json>, key: string): (k: Option<string>)
    ensures k.Some? ==> k.value in fields && k.value in CommaPermutations(key)
    ensures k.Some? <==> HasKeyLike(fields, key)
    ensures key in fields ==> k == Some(key)
  {
    KeyPermutationMeaning(key, fields.Keys);
    FirstInSound(CommaPermutations(key), fields.Keys);
    FirstIn(CommaPermutations(key), fields.Keys)
  }

  /** `jsonPath` with the inner step following the matched key. */
  function JsonPath(json: Json, path: seq<string>): (r: Result<bool>)
    ensures path == [] ==> r == Err(IndexError)
    ensures r != Err(KeyError)
    decreases |path|
  {
    if path == [] then Err(IndexError)
    else
      var key := path[0];
      if |path| == 1 then
        match json
        case List(_) => Ok(false)
        case Scalar => Err(AttributeError)
        case Object(fields) => Ok(HasKeyLike(fields, key))
      else
        match json
        case Object(fields) =>
          (match MatchedKey(fields, key)
           case None => Ok(false)
           case Some(k) => JsonPath(fields[k], path[1..]))
        case _ => Err(AttributeError)
  }

  /** Where every step's key is spelt as in the document, both versions agree. */
  lemma {:induction false} JsonPathAgreesOnExactKeys(json: Json, path: seq<string>)
    requires JsonPathAsWritten(json, path) != Err(KeyError)
    ensures JsonPath(json, path) == JsonPathAsWritten(json, path)
    decreases |path|
  {
    if |path| > 1 && json.Object? && HasKeyLike(json.fields, path[0]) {
      JsonPathAgreesOnExactKeys(json.fields[path[0]], path[1..]);
    }
  }

  /** An exact chain of objects along the path is found. */
  ghost predicate Leads(json: Json, path: seq<string>)
    decreases |path|
  {
    path != [] && json.Object? && path[0] in json.fields &&
    (|path| == 1 || Leads(json.fields[path[0]], path[1..]))
  }

  /** A chain of objects along the path, each step's key present as
      spelt or as one of its comma rearrangements. */
  ghost predicate LeadsLike(json: Json, path: seq<string>)
    decreases |path|
  {
    path != [] && json.Object? &&
    exists k :: k in json.fields && (k == path[0] || k in CommaPermutations(path[0])) &&
      (|path| == 1 || LeadsLike(json.fields[k], path[1..]))
  }

  /** A True answer from the corrected test means the path is there, up to
      comma rearrangement of each key: what callers rely on before they
      index the document. */
  lemma {:induction false} JsonPathSound(json: Json, path: seq<string>)
    ensures JsonPath(json, path) == Ok(true) ==> LeadsLike(json, path)
    decreases |path|
  {
    if JsonPath(json, path) == Ok(true) {
      var key := path[0];
      var fields := json.fields;
      var m := MatchedKey(fields, key);
      assert m.Some?;
      var k := m.value;
      if |path| > 1 {
        JsonPathSound(fields[k], path[1..]);
      }
      assert k in fields && k in CommaPermutations(key) &&
        (|path| == 1 || LeadsLike(fields[k], path[1..]));
    }
  }

  /** The same for the test as written: a True answer is never a KeyError
      path, so the two versions agree there. */
  lemma JsonPathAsWrittenSound(json: Json, path: seq<string>)
    ensures JsonPathAsWritten(json, path) == Ok(true) ==> LeadsLike(json, path)
  {
    if JsonPathAsWritten(json, path) == Ok(true) {
      JsonPathAgreesOnExactKeys(json, path);
      JsonPathSound(json, path);
    }
  }

  /** The corrected test follows a rearranged key on an inner step: the
      document {"b,a": {"c": ...}} and the path ["a,b", "c"] are found,
      where the code as written raises KeyError. */
  lemma JsonPathFindsRearranged(a: string, b: string, next: string, inner: Json)
    requires ',' !in a && ',' !in b
    ensures JsonPath(Object(map[b + "," + a := Object(map[next := inner])]), [a + "," + b, next]) == Ok(true)
  {
    var key, other := a + "," + b, b + "," + a;
    var fields := map[other := Object(map[next := inner])];
    var path := [key, next];
    CommaPermutationsOfPair(a, b);
    assert other in CommaPermutations(key);
    assert HasKeyLike(fields, key);
    var m := MatchedKey(fields, key);
    assert m == Some(other);
    assert path[1..] == [next];
    assert JsonPath(fields[other], [next]) == Ok(true);
  }

  /** `jsonPath` answers True for every path spelt out in the document. */
  lemma {:induction false} JsonPathFindsExactPaths(json: Json, path: seq<string>)
    requires Leads(json, path)
    ensures JsonPath(json, path) == Ok(true)
    ensures JsonPathAsWritten(json, path) == Ok(true)
    decreases |path|
  {
    if |path| > 1 {
      JsonPathFindsExactPaths(json.fields[path[0]], path[1..]);
    }
  }
}
