/** The truncation of long tool output to a byte limit, on a character boundary of UTF-8 (section 4
    of RFC 3629). */
module Truncate {
  import opened Common
  import Text

  type Byte = b: int | 0 <= b < 256
  type Bytes = seq<Byte>

  const LIMIT := 64000
  const RUNE_ERROR := 0xFFFD

  // ---------- UTF-8 ----------

  predicate Tail(b: Byte) {
    0x80 <= b <= 0xBF
  }

  /** The bytes of one character. */
  predicate Character(s: Bytes) {
    match |s|
    case 1 => s[0] <= 0x7F
    case 2 => 0xC2 <= s[0] <= 0xDF && Tail(s[1])
    case 3 =>
      && Tail(s[2])
      && ( || (s[0] == 0xE0 && 0xA0 <= s[1] <= 0xBF)
           || (0xE1 <= s[0] <= 0xEC && Tail(s[1]))
           || (s[0] == 0xED && 0x80 <= s[1] <= 0x9F)
           || (0xEE <= s[0] <= 0xEF && Tail(s[1])))
    case 4 =>
      && Tail(s[2]) && Tail(s[3])
      && ( || (s[0] == 0xF0 && 0x90 <= s[1] <= 0xBF)
           || (0xF1 <= s[0] <= 0xF3 && Tail(s[1]))
           || (s[0] == 0xF4 && 0x80 <= s[1] <= 0x8F))
    case _ => false
  }

  /** How many bytes the character has that starts with this byte, 0 if none does. */
  function Size(b: Byte): nat {
    if b <= 0x7F then 1
    else if 0xC2 <= b <= 0xDF then 2
    else if 0xE0 <= b <= 0xEF then 3
    else if 0xF0 <= b <= 0xF4 then 4
    else 0
  }

  lemma {:induction false} CharacterSize(s: Bytes, k: nat)
    requires k <= |s| && Character(s[..k])
    ensures k >= 1 && k == Size(s[0])
  {
    assert s[..k][0] == s[0];
  }

  /** A text starts with a character of k bytes. */
  predicate StartsWhole(s: Bytes, k: nat) {
    1 <= k <= |s| && k <= 4 && Character(s[..k])
  }

  /** A text: characters one after another. */
  predicate Valid(s: Bytes) {
    s == [] || (StartsWhole(s, Size(s[0])) && Valid(s[Size(s[0])..]))
  }

  lemma {:induction false} ValidCons(a: Bytes, b: Bytes)
    requires Character(a) && Valid(b)
    ensures Valid(a + b)
  {
    var k := |a|;
    assert a[..k] == a;
    CharacterSize(a, k);
    assert (a + b)[..k] == a && (a + b)[k..] == b && (a + b)[0] == a[0];
  }

  lemma {:induction false} FirstOf(s: Bytes) returns (c: Bytes, rest: Bytes)
    requires Valid(s) && s != []
    ensures s == c + rest && c != [] && Character(c) && Valid(rest)
  {
    c, rest := s[..Size(s[0])], s[Size(s[0])..];
  }

  lemma {:induction false} ValidConcat(a: Bytes, b: Bytes)
    requires Valid(a) && Valid(b)
    ensures Valid(a + b)
    decreases |a|
  {
    if a == [] {
      assert a + b == b;
    } else {
      var c, rest := FirstOf(a);
      ValidConcat(rest, b);
      ValidCons(c, rest + b);
      Assoc(c, rest, b);
    }
  }

  lemma {:induction false} ValidOne(s: Bytes)
    requires Character(s)
    ensures Valid(s)
  {
    ValidCons(s, []);
    assert s + [] == s;
  }

  /** Any place in a text is at the start of a character or inside one. */
  lemma {:induction false} Place(s: Bytes, p: nat) returns (start: nat, size: nat)
    requires Valid(s) && p < |s|
    ensures start <= p < start + size <= |s| && size <= 4
    ensures Valid(s[..start]) && Character(s[start..start + size])
    decreases |s|
  {
    var k := Size(s[0]);
    if p < k {
      start, size := 0, k;
      assert s[..0] == [] && s[0..k] == s[..k];
    } else {
      var b, n := Place(s[k..], p - k);
      start, size := b + k, n;
      PlaceFurther(s, k, b, n);
    }
  }

  lemma {:induction false} PlaceFurther(s: Bytes, k: nat, b: nat, n: nat)
    requires k <= |s| && Character(s[..k]) && b + n <= |s| - k
    requires Valid(s[k..][..b]) && Character(s[k..][b..b + n])
    ensures Valid(s[..b + k]) && Character(s[b + k..b + k + n])
  {
    SliceFurther(s, k, b, n);
    ValidCons(s[..k], s[k..][..b]);
  }

  lemma {:induction false} SliceFurther(s: Bytes, k: nat, b: nat, n: nat)
    requires k + b + n <= |s|
    ensures s[k..][b..b + n] == s[b + k..b + k + n]
    ensures s[..k] + s[k..][..b] == s[..b + k]
  {
    var inner, outer := s[k..][b..b + n], s[b + k..b + k + n];
    assert forall i | 0 <= i < n :: inner[i] == s[k + b + i] == outer[i];
    assert s[k..][..b] == s[k..b + k];
    TakeStretch(s, k, b + k);
  }

  // ---------- Decoding ----------

  predicate RuneStart(b: Byte) {
    !(0x80 <= b < 0xC0)
  }

  /** For a leading byte: how many bytes its character has, and the range of the second one;
      no bytes for a byte that leads nothing. */
  function Lead(b: Byte): (nat, int, int) {
    if 0xC2 <= b <= 0xDF then (2, 0x80, 0xBF)
    else if b == 0xE0 then (3, 0xA0, 0xBF)
    else if b == 0xED then (3, 0x80, 0x9F)
    else if 0xE1 <= b <= 0xEF then (3, 0x80, 0xBF)
    else if b == 0xF0 then (4, 0x90, 0xBF)
    else if 0xF1 <= b <= 0xF3 then (4, 0x80, 0xBF)
    else if b == 0xF4 then (4, 0x80, 0x8F)
    else (0, 0, 0)
  }

  /** The bits of several bytes, six from each after the first. */
  function Code(parts: seq<int>): int {
    if parts == [] then 0 else 64 * Code(Front(parts)) + Last(parts)
  }

  /** The first character's code and size; an error has size 1, or 0 at the end. */
  function DecodeRune(s: Bytes): (int, nat) {
    if s == [] then (RUNE_ERROR, 0)
    else if s[0] < 0x80 then (s[0], 1)
    else
      var (size, lo, hi) := Lead(s[0]);
      if size == 0 || |s| < size then (RUNE_ERROR, 1)
      else if s[1] < lo || hi < s[1] then (RUNE_ERROR, 1)
      else if size == 2 then (Code([s[0] % 32, s[1] % 64]), 2)
      else if !Tail(s[2]) then (RUNE_ERROR, 1)
      else if size == 3 then (Code([s[0] % 16, s[1] % 64, s[2] % 64]), 3)
      else if !Tail(s[3]) then (RUNE_ERROR, 1)
      else (Code([s[0] % 8, s[1] % 64, s[2] % 64, s[3] % 64]), 4)
  }

  /** The last place before `end` and not before `low` that may start a character, else `low - 1`. */
  function StartBefore(s: Bytes, end: int, low: nat): (start: int)
    requires low <= |s| && low - 1 <= end < |s|
    ensures low - 1 <= start <= end
    decreases end
  {
    if end < low || RuneStart(s[end]) then end else StartBefore(s, end - 1, low)
  }

  /** The last character's code and size, found by looking back at most four bytes. */
  function DecodeLastRune(s: Bytes): (int, nat) {
    var end := |s|;
    if end == 0 then (RUNE_ERROR, 0)
    else if s[end - 1] < 0x80 then (s[end - 1], 1)
    else
      var low := Max(end - 4, 0);
      var start := Max(StartBefore(s, end - 2, low), 0);
      var (rune, size) := DecodeRune(s[start..end]);
      if start + size != end then (RUNE_ERROR, 1) else (rune, size)
  }

  /** The test of the truncation's loop: the end is not in the middle of a character. */
  predicate EndsWhole(s: Bytes) {
    var (rune, size) := DecodeLastRune(s);
    rune != RUNE_ERROR || size > 1
  }

  /** Decoding finds exactly the characters of the standard. */
  lemma {:induction false} DecodeFinds(s: Bytes)
    requires s != []
    ensures var (rune, size) := DecodeRune(s);
            && 1 <= size <= |s| && size <= 4
            && (Character(s[..size]) <==> rune != RUNE_ERROR || size > 1)
            && forall k: nat | k <= |s| && Character(s[..k]) :: k == size
  {
  }

  lemma {:induction false} InsideIsTail(s: Bytes, i: nat)
    requires Character(s) && 0 < i < |s|
    ensures Tail(s[i]) && RuneStart(s[0]) && s[0] >= 0xC2
  {
  }

  /** An end that passes the test is the end of a character. */
  lemma {:induction false} WholeEnd(s: Bytes) returns (q: nat)
    requires s != [] && EndsWhole(s)
    ensures q < |s| && Character(s[q..]) && RuneStart(s[q])
  {
    var end := |s|;
    if s[end - 1] < 0x80 {
      q := end - 1;
      assert s[q..] == [s[end - 1]];
    } else {
      q := Max(StartBefore(s, end - 2, Max(end - 4, 0)), 0);
      assert s[q..end] == s[q..] && s[q..][0] == s[q];
      DecodeFinds(s[q..]);
      assert s[q..][..end - q] == s[q..];
    }
  }

  lemma {:induction false} LookBack(s: Bytes, end: int, low: nat, start: nat)
    requires low <= start <= end < |s| && RuneStart(s[start])
    requires forall i | start < i <= end :: !RuneStart(s[i])
    ensures StartBefore(s, end, low) == start
    decreases end
  {
    if end > start {
      LookBack(s, end - 1, low, start);
    }
  }

  /** The end of a character passes the test. */
  lemma {:induction false} EndIsWhole(s: Bytes, start: nat)
    requires start < |s| && Character(s[start..])
    ensures EndsWhole(s)
  {
    var end, c := |s|, s[start..];
    if |c| == 1 {
      assert s[end - 1] == c[0];
    } else {
      InsideIsTail(c, |c| - 1);
      assert s[end - 1] == c[|c| - 1] && s[start] == c[0];
      forall i | start < i <= end - 2 ensures !RuneStart(s[i]) {
        InsideIsTail(c, i - start);
        assert s[i] == c[i - start];
      }
      LookBack(s, end - 2, Max(end - 4, 0), start);
      DecodeFinds(c);
      assert c[..|c|] == c && s[start..end] == c;
    }
  }

  /** A place where a character starts ends a text. */
  lemma {:induction false} StartEndsText(text: Bytes, q: nat)
    requires Valid(text) && q < |text| && RuneStart(text[q])
    ensures Valid(text[..q])
  {
    var start, size := Place(text, q);
    if start < q {
      var c := text[start..start + size];
      assert c[q - start] == text[q];
      InsideIsTail(c, q - start);
    }
  }

  /** The first p bytes are a text. */
  predicate TextUpTo(text: Bytes, p: nat) {
    p <= |text| && Valid(text[..p])
  }

  lemma {:induction false} WholeEndsText(text: Bytes, p: nat)
    requires Valid(text) && 0 < p <= |text| && EndsWhole(text[..p])
    ensures TextUpTo(text, p)
  {
    var s := text[..p];
    var q := WholeEnd(s);
    StartEndsText(text, q);
    assert text[..q] == s[..q];
    ValidOne(s[q..]);
    ValidConcat(s[..q], s[q..]);
    assert s == s[..q] + s[q..];
  }

  lemma {:induction false} TextEndsWhole(s: Bytes)
    requires Valid(s) && s != []
    ensures EndsWhole(s)
  {
    var start, size := Place(s, |s| - 1);
    assert s[start..start + size] == s[start..];
    EndIsWhole(s, start);
  }

  /** In a text, a place passes the test exactly when the bytes before it are a text. */
  lemma {:induction false} EndsWholeIff(text: Bytes, p: nat)
    requires Valid(text) && 0 < p <= |text|
    ensures EndsWhole(text[..p]) <==> TextUpTo(text, p)
  {
    if EndsWhole(text[..p]) {
      WholeEndsText(text, p);
    } else if TextUpTo(text, p) {
      TextEndsWhole(text[..p]);
    }
  }

  // ---------- The cut ----------

  function TrimRight(s: Bytes): Bytes {
    if s != [] && (Last(s) == 0x0D || Last(s) == 0x0A) then TrimRight(Front(s)) else s
  }

  /** The longest beginning, of at most n bytes, whose end passes the test. */
  function CutAt(text: Bytes, n: nat): (cut: nat)
    requires n <= |text|
    ensures cut <= n
  {
    if n == 0 || EndsWhole(text[..n]) then n else CutAt(text, n - 1)
  }

  /** The cut of a text is its longest beginning of at most n bytes that is a text itself. */
  lemma {:induction false} CutIsLongest(text: Bytes, n: nat)
    requires Valid(text) && n <= |text|
    ensures TextUpTo(text, CutAt(text, n))
    ensures forall m | CutAt(text, n) < m <= n :: !TextUpTo(text, m)
  {
    if n == 0 {
      assert text[..0] == [];
    } else {
      EndsWholeIff(text, n);
      if !EndsWhole(text[..n]) {
        CutIsLongest(text, n - 1);
        assert CutAt(text, n) == CutAt(text, n - 1);
      } else {
        assert CutAt(text, n) == n;
      }
    }
  }

  /** And it loses at most three bytes. */
  lemma {:induction false} CutLosesLittle(text: Bytes, n: nat)
    requires Valid(text) && n <= |text|
    ensures n - CutAt(text, n) <= 3
  {
    CutIsLongest(text, n);
    if n < |text| {
      var start, size := Place(text, n);
      assert TextUpTo(text, start);
    } else {
      assert text[..n] == text && TextUpTo(text, n);
    }
  }

  const REPLACEMENT: Bytes := [0xEF, 0xBF, 0xBD]

  /** A replacement character that the text itself has at the cut is kept. */
  lemma {:induction false} ReplacementIsKept(text: Bytes, n: nat)
    requires 3 <= n <= |text| && text[n - 3..n] == REPLACEMENT
    ensures DecodeRune(REPLACEMENT) == (RUNE_ERROR, 3)
    ensures CutAt(text, n) == n
  {
    assert Code([0xEF % 16, 0xBF % 64, 0xBD % 64]) == RUNE_ERROR by {
      assert Front([15, 63, 61]) == [15, 63] && Front([15, 63]) == [15] && Front([15]) == [];
    }
    assert text[..n][n - 3..] == REPLACEMENT;
    EndIsWhole(text[..n], n - 3);
  }

  /** Taking line ends off a text leaves a text. */
  lemma {:induction false} TrimKeepsText(s: Bytes)
    requires Valid(s)
    ensures Valid(TrimRight(s)) && TrimRight(s) <= s
  {
    if s != [] && (Last(s) == 0x0D || Last(s) == 0x0A) {
      StartEndsText(s, |s| - 1);
      TrimKeepsText(Front(s));
    }
  }

  // ---------- The program ----------

  predicate IsAscii(s: string) {
    forall i | 0 <= i < |s| :: s[i] < 128 as char
  }

  function Ascii(s: string): Bytes
    requires IsAscii(s)
  {
    if s == "" then [] else Ascii(Front(s)) + [Last(s) as int]
  }

  function NoticeText(total: nat): (s: string)
    ensures IsAscii(s)
  {
    var before, digits, after := "\n... output truncated (", Text.Decimal(total), " bytes total)";
    assert IsAscii(digits) by {
      forall i | 0 <= i < |digits| ensures digits[i] < 128 as char {
        assert digits[i] in digits;
      }
    }
    assert IsAscii(before) && IsAscii(after);
    before + digits + after
  }

  function Notice(total: nat): Bytes {
    Ascii(NoticeText(total))
  }

  /** Output within the limit loses only its line ends; longer output is cut and marked. */
  method TrimToolOutput(text: Bytes) returns (out: Bytes)
    ensures |text| <= 64000 ==> out == TrimRight(text)
    ensures |text| > 64000 ==> out == TrimRight(text[..CutAt(text, 64000)]) + Notice(|text|)
  {
    if |text| <= LIMIT {
      return TrimRight(text);
    }
    var cut := text[..LIMIT];
    while |cut| > 0
      invariant cut == text[..|cut|] && |cut| <= LIMIT && CutAt(text, LIMIT) == CutAt(text, |cut|)
    {
      if EndsWhole(cut) {
        break;
      }
      cut := cut[..|cut| - 1];
    }
    out := TrimRight(cut) + Notice(|text|);
  }

  lemma {:induction false} AsciiIsText(s: string)
    requires IsAscii(s)
    ensures Valid(Ascii(s))
  {
    if s != "" {
      AsciiIsText(Front(s));
      ValidOne([Last(s) as int]);
      ValidConcat(Ascii(Front(s)), [Last(s) as int]);
    }
  }

  /** What is shown of a text is a text: the longest beginning that fits, without its line ends,
      and a notice when something is missing. */
  lemma {:induction false} OutputIsText(text: Bytes)
    requires Valid(text) && |text| > LIMIT
    ensures var cut := CutAt(text, LIMIT);
            && LIMIT - 3 <= cut <= LIMIT && TextUpTo(text, cut)
            && (forall m | cut < m <= LIMIT :: !TextUpTo(text, m))
            && TrimRight(text[..cut]) <= text[..cut]
            && Valid(TrimRight(text[..cut]) + Notice(|text|))
  {
    var cut := CutAt(text, LIMIT);
    CutIsLongest(text, LIMIT);
    CutLosesLittle(text, LIMIT);
    TrimKeepsText(text[..cut]);
    AsciiIsText(NoticeText(|text|));
    ValidConcat(TrimRight(text[..cut]), Notice(|text|));
  }

  predicate LineEnd(b: Byte) {
    b == 0x0D || b == 0x0A
  }

  /** Trimming takes off line ends only, and all that are at the end. */
  lemma {:induction false} TrimTakesLineEnds(s: Bytes)
    ensures TrimRight(s) <= s && (TrimRight(s) != [] ==> !LineEnd(Last(TrimRight(s))))
    ensures forall i | |TrimRight(s)| <= i < |s| :: LineEnd(s[i])
  {
    if s != [] && LineEnd(Last(s)) {
      TrimTakesLineEnds(Front(s));
    }
  }

  /** The notice names the length of the whole text. */
  lemma {:induction false} NoticeNamesTheLength(total: nat) returns (digits: string)
    ensures NoticeText(total) == "\n... output truncated (" + digits + " bytes total)"
    ensures (forall c | c in digits :: Text.IsDigit(c)) && Text.Value(digits) == total
  {
    digits := Text.Decimal(total);
    Text.DecimalValue(total);
  }
}
