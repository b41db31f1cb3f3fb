/** Strings as the program uses them: ordering by code point, decimal digits,
    `str.strip` / `str.split`, and the text of instants. */
module Text {
  import opened Wrappers

  // ---------------------------------------------------------------- ordering

  /** Python's `<` on strings: lexicographic by code point. */
  predicate Less(a: string, b: string) {
    if |b| == 0 then false
    else if |a| == 0 then true
    else a[0] < b[0] || (a[0] == b[0] && Less(a[1..], b[1..]))
  }

  lemma {:induction false} LessIrreflexive(a: string)
    ensures !Less(a, a)
  {
    if |a| > 0 { LessIrreflexive(a[1..]); }
  }

  lemma {:induction false} LessTransitive(a: string, b: string, c: string)
    requires Less(a, b) && Less(b, c)
    ensures Less(a, c)
  {
    if |a| > 0 && a[0] == b[0] && b[0] == c[0] { LessTransitive(a[1..], b[1..], c[1..]); }
  }

  lemma {:induction false} LessTotal(a: string, b: string)
    ensures a == b || Less(a, b) || Less(b, a)
  {
    if |a| > 0 && |b| > 0 && a[0] == b[0] {
      LessTotal(a[1..], b[1..]);
      assert a == [a[0]] + a[1..] && b == [b[0]] + b[1..];
    }
  }

  /** One string comes before another if it is a proper beginning of it, or has the smaller
      character at the first difference. */
  lemma {:induction false} LessMeans(a: string, b: string)
    ensures Less(a, b) <==>
              exists k: nat :: k <= |a| && k < |b| && a[..k] == b[..k] && (k == |a| || a[k] < b[k])
  {
    if Less(a, b) {
      var k := FirstDifference(a, b);
      assert k <= |a| && k < |b| && a[..k] == b[..k] && (k == |a| || a[k] < b[k]);
    }
    if k: nat :| k <= |a| && k < |b| && a[..k] == b[..k] && (k == |a| || a[k] < b[k]) { LessAt(a, b, k); }
  }

  lemma {:induction false} FirstDifference(a: string, b: string) returns (k: nat)
    requires Less(a, b)
    ensures k <= |a| && k < |b| && a[..k] == b[..k] && (k == |a| || a[k] < b[k])
  {
    if a == "" || a[0] < b[0] {
      k := 0;
    } else {
      var n := FirstDifference(a[1..], b[1..]);
      k := n + 1;
      FrontSplit(a, n);
      FrontSplit(b, n);
    }
  }

  lemma FrontSplit(a: string, n: nat)
    requires n < |a|
    ensures a[..n + 1] == [a[0]] + a[1..][..n]
  {
  }

  lemma {:induction false} LessAt(a: string, b: string, k: nat)
    requires k <= |a| && k < |b| && a[..k] == b[..k] && (k == |a| || a[k] < b[k])
    ensures Less(a, b)
  {
    if k > 0 {
      assert a[0] == a[..k][0] == b[..k][0] == b[0];
      assert a[1..][..k - 1] == a[..k][1..] && b[1..][..k - 1] == b[..k][1..];
      LessAt(a[1..], b[1..], k - 1);
    }
  }

  // ------------------------------------------------------------------ digits

  predicate IsDigit(c: char) { '0' <= c <= '9' }

  predicate AllDigits(s: string) { forall i :: 0 <= i < |s| ==> IsDigit(s[i]) }

  function DigitChar(d: nat): (c: char)
    requires d < 10
    ensures IsDigit(c) && c as int - '0' as int == d
  {
    ('0' as int + d) as char
  }

  /** Decimal digits of a natural number, without leading zeros. */
  function NatText(n: nat): (s: string)
    ensures |s| > 0 && AllDigits(s)
    ensures s[0] == '0' ==> |s| == 1
  {
    if n < 10 then [DigitChar(n)] else NatText(n / 10) + [DigitChar(n % 10)]
  }

  function NatValue(s: string): nat
    requires AllDigits(s)
  {
    if s == "" then 0
    else 10 * NatValue(s[..|s| - 1]) + (s[|s| - 1] as int - '0' as int)
  }

  lemma {:induction false} NatRoundTrip(n: nat)
    ensures NatValue(NatText(n)) == n
  {
    if n < 10 {
      assert [DigitChar(n)][..0] == "";
    } else {
      NatRoundTrip(n / 10);
      var s := NatText(n);
      assert s[..|s| - 1] == NatText(n / 10);
    }
  }

  function IntText(n: int): string {
    if n < 0 then "-" + NatText(-n) else NatText(n)
  }

  /** Number of leading digit characters. */
  function DigitRun(s: string): (k: nat)
    ensures k <= |s| && AllDigits(s[..k]) && (k < |s| ==> !IsDigit(s[k]))
  {
    if s == "" || !IsDigit(s[0]) then 0
    else
      var k := 1 + DigitRun(s[1..]);
      assert s[..k] == [s[0]] + s[1..][..k - 1];
      k
  }

  lemma {:induction false} DigitRunOf(d: string, rest: string)
    requires AllDigits(d) && (rest == "" || !IsDigit(rest[0]))
    ensures DigitRun(d + rest) == |d|
  {
    if d == "" {
      assert d + rest == rest;
    } else {
      DigitRunOf(d[1..], rest);
      assert (d + rest)[0] == d[0];
      assert (d + rest)[1..] == d[1..] + rest;
    }
  }

  function Zeros(k: nat): (s: string)
    ensures |s| == k && AllDigits(s)
  {
    if k == 0 then "" else "0" + Zeros(k - 1)
  }

  lemma {:induction false} NatValueSplit(a: string, b: string)
    requires AllDigits(a) && AllDigits(b)
    ensures AllDigits(a + b)
    ensures a == Zeros(|a|) ==> NatValue(a + b) == NatValue(b)
    decreases |b|
  {
    if b == "" {
      assert a + b == a;
      if a == Zeros(|a|) && |a| > 0 { ZerosValue(|a|); }
      if a == Zeros(|a|) && |a| == 0 { assert a == ""; }
    } else {
      var b' := b[..|b| - 1];
      NatValueSplit(a, b');
      assert (a + b)[..|a + b| - 1] == a + b';
    }
  }

  lemma {:induction false} ZerosValue(k: nat)
    ensures NatValue(Zeros(k)) == 0
    ensures k > 0 ==> Zeros(k)[..k - 1] == Zeros(k - 1)
  {
    if k > 1 {
      ZerosValue(k - 1);
      assert Zeros(k)[..k - 1] == "0" + Zeros(k - 1)[..k - 2];
    } else if k == 1 {
      assert Zeros(1)[..0] == Zeros(0);
    }
  }

  // -------------------------------------------------------------- whitespace

  /** The characters for which `str.isspace` holds. */
  predicate IsSpace(c: char) {
    var n := c as int;
    9 <= n <= 13 || 28 <= n <= 32 || n == 133 || n == 160 || n == 5760 || 8192 <= n <= 8202
    || n == 8232 || n == 8233 || n == 8239 || n == 8287 || n == 12288
  }

  /** `not s.strip()` */
  predicate Blank(s: string) { forall i :: 0 <= i < |s| ==> IsSpace(s[i]) }

  /** `" ".join(s.split())`: words separated by single spaces. `gap` says that a
      separator is owed before the next word. */
  function Squeeze(s: string, started: bool := false, gap: bool := false): string {
    if s == "" then ""
    else if IsSpace(s[0]) then Squeeze(s[1..], started, true)
    else (if started && gap then " " else "") + [s[0]] + Squeeze(s[1..], true, false)
  }

  /** Number of leading characters that are no space. */
  function WordRun(s: string): (k: nat)
    ensures k <= |s| && (forall i :: 0 <= i < k ==> !IsSpace(s[i])) && (k < |s| ==> IsSpace(s[k]))
  {
    if s == "" || IsSpace(s[0]) then 0 else 1 + WordRun(s[1..])
  }

  /** `s.split()`: the maximal runs of characters that are no space. */
  function Words(s: string): (words: seq<string>)
    ensures forall i :: 0 <= i < |words| ==>
              words[i] != "" && forall j :: 0 <= j < |words[i]| ==> !IsSpace(words[i][j])
  {
    if s == "" then []
    else if IsSpace(s[0]) then Words(s[1..])
    else [s[..WordRun(s)]] + Words(s[WordRun(s)..])
  }

  /** `" ".join(words)` */
  function Joined(words: seq<string>): string {
    if words == [] then "" else if |words| == 1 then words[0] else words[0] + " " + Joined(words[1..])
  }

  lemma JoinedCons(word: string, words: seq<string>)
    ensures Joined([word] + words) == word + if words == [] then "" else " " + Joined(words)
  {
    assert ([word] + words)[1..] == words;
  }

  /** The one-pass form is split followed by join. */
  lemma {:induction false} SqueezeJoins(s: string)
    ensures Squeeze(s) == Joined(Words(s))
    decreases |s|
  {
    hide IsSpace, WordRun, Joined;
    if s == "" {
      JoinedNone();
    } else if IsSpace(s[0]) {
      LeadingGap(s[1..]);
      SqueezeJoins(s[1..]);
    } else {
      WordRunStarts(s);
      var k := WordRun(s);
      WordFirst(s, false, false);
      SqueezeJoins(s[k..]);
      RestJoins(s[k..]);
      hide Squeeze;
      JoinedCons(s[..k], Words(s[k..]));
    }
  }

  lemma JoinedNone()
    ensures Joined([]) == ""
  {
  }

  lemma WordRunStarts(s: string)
    requires s != "" && !IsSpace(s[0])
    ensures 0 < WordRun(s) <= |s| && (WordRun(s) < |s| ==> IsSpace(s[WordRun(s)]))
  {
  }

  /** Before the first word a gap is not written. */
  lemma {:induction false} LeadingGap(s: string)
    ensures Squeeze(s, false, true) == Squeeze(s, false, false)
  {
    if s != "" && IsSpace(s[0]) { LeadingGap(s[1..]); }
  }

  /** A word at the front is copied whole. */
  lemma {:induction false} WordFirst(s: string, started: bool, gap: bool)
    requires s != "" && !IsSpace(s[0])
    ensures var k := WordRun(s);
            Squeeze(s, started, gap) == (if started && gap then " " else "") + s[..k] + Squeeze(s[k..], true, false)
  {
    var k, gapText := WordRun(s), if started && gap then " " else "";
    assert Squeeze(s, started, gap) == gapText + [s[0]] + Squeeze(s[1..], true, false);
    if k == 1 {
      assert s[..1] == [s[0]];
    } else {
      WordFirst(s[1..], true, false);
      assert WordRun(s[1..]) == k - 1;
      hide Squeeze, WordRun;
      CopiedOn(s, k, gapText, Squeeze(s[k..], true, false));
    }
  }

  lemma CopiedOn(s: string, k: nat, before: string, rest: string)
    requires 1 < k <= |s|
    ensures s[1..][k - 1..] == s[k..]
    ensures before + [s[0]] + ("" + s[1..][..k - 1] + rest) == before + s[..k] + rest
  {
    assert s[..k] == [s[0]] + s[1..][..k - 1];
  }

  /** After a word each further word is preceded by one space. */
  lemma {:induction false} RestJoins(s: string)
    requires s == "" || IsSpace(s[0])
    ensures Squeeze(s, true, false) == if Words(s) == [] then "" else " " + Squeeze(s)
    decreases |s|
  {
    if s != "" {
      LeadingGap(s[1..]);
      GapJoins(s[1..]);
    }
  }

  lemma {:induction false} GapJoins(s: string)
    ensures Squeeze(s, true, true) == if Words(s) == [] then "" else " " + Squeeze(s)
    decreases |s|
  {
    if s != "" {
      if IsSpace(s[0]) {
        LeadingGap(s[1..]);
        GapJoins(s[1..]);
      } else {
        WordFirst(s, true, true);
        WordFirst(s, false, false);
      }
    }
  }

  /** A text has no words if and only if it is blank, and then nothing is left of it. */
  lemma {:induction false} BlankMeansNoWords(s: string)
    ensures Blank(s) <==> Words(s) == []
    ensures Blank(s) ==> Squeeze(s) == ""
  {
    if s != "" && IsSpace(s[0]) {
      BlankMeansNoWords(s[1..]);
      LeadingGap(s[1..]);
      assert forall i :: 0 <= i < |s[1..]| ==> s[1..][i] == s[i + 1];
      if Blank(s[1..]) {
        forall i | 0 <= i < |s| ensures IsSpace(s[i]) { if i > 0 { assert s[i] == s[1..][i - 1]; } }
      }
    }
  }

  // ---------------------------------------------------------------- instants

  /** A point in time with the offset it was written in. Instants count
      microseconds from the epoch. */
  datatype Zoned = Zoned(instant: int, offset: int)

  /** `value.astimezone(UTC)` */
  function AsUtc(t: Zoned): Zoned { Zoned(t.instant, 0) }

  /** Stand-in for `isoformat()` of a UTC instant: any injective text would do. */
  function IsoText(instant: int): string { IntText(instant) + "+00:00" }

  function ParseIso(s: string): Option<Zoned> {
    if |s| > 6 && s[|s| - 6..] == "+00:00" then
      var body := s[..|s| - 6];
      match ParseInt(body)
      case Some(n) => Some(Zoned(n, 0))
      case None => None
    else None
  }

  function ParseInt(s: string): Option<int> {
    if s == "" then None
    else if s[0] == '-' then
      if |s| > 1 && AllDigits(s[1..]) then Some(0 - NatValue(s[1..])) else None
    else if AllDigits(s) then Some(NatValue(s))
    else None
  }

  lemma IntRoundTrip(n: int)
    ensures ParseInt(IntText(n)) == Some(n)
  {
    if n < 0 {
      NatRoundTrip(-n);
      assert IntText(n)[1..] == NatText(-n);
    } else {
      NatRoundTrip(n);
    }
  }

  lemma IsoRoundTrip(instant: int)
    ensures ParseIso(IsoText(instant)) == Some(Zoned(instant, 0))
  {
    IntRoundTrip(instant);
    var s := IsoText(instant);
    assert s[|s| - 6..] == "+00:00";
    assert s[..|s| - 6] == IntText(instant);
  }
}
