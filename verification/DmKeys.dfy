/**
 Conversation keys of direct messages: ids as hyphenated lowercase hexadecimal text (section 4 of
 RFC 9562), printed, parsed, and ordered. The parser also takes the digits without hyphens, the
 hyphenated text in braces, and the URN.
 */
module DmKeys {
  import opened Options

  /** A 128-bit id. */
  const IDS: nat := 0x1_0000_0000_0000_0000_0000_0000_0000_0000

  type Id = n: nat | n < IDS

  // ------------------------------------------------------------------ hexadecimal digits

  const DIGITS: string := "0123456789abcdef"

  function Digit(n: nat): char
    requires n < 16
  {
    DIGITS[n]
  }

  /** The value of a digit, in either case; 16 for any other character. */
  function DigitValue(c: char): nat {
    if '0' <= c <= '9' then (c - '0') as nat
    else if 'a' <= c <= 'f' then (c - 'a') as nat + 10
    else if 'A' <= c <= 'F' then (c - 'A') as nat + 10
    else 16
  }

  predicate IsHex(s: string) { s != [] ==> IsHex(s[..|s| - 1]) && DigitValue(s[|s| - 1]) < 16 }

  /** The last `k` hexadecimal digits of `n`. */
  function Hex(n: nat, k: nat): (s: string)
    ensures |s| == k
  {
    if k == 0 then "" else Hex(n / 16, k - 1) + [Digit(n % 16)]
  }

  function Value(s: string): nat
    requires IsHex(s)
  {
    if s == [] then 0 else 16 * Value(s[..|s| - 1]) + DigitValue(s[|s| - 1])
  }

  function LowerChar(c: char): char { if 'A' <= c <= 'F' then c - 'A' + 'a' else c }

  function Lower(s: string): (t: string)
    ensures |t| == |s|
  {
    if s == [] then [] else Lower(s[..|s| - 1]) + [LowerChar(s[|s| - 1])]
  }

  lemma {:induction false} LowerAt(s: string, i: nat)
    requires i < |s|
    ensures Lower(s)[i] == LowerChar(s[i])
  {
    if i < |s| - 1 {
      LowerAt(s[..|s| - 1], i);
    }
  }

  function Power16(k: nat): nat { if k == 0 then 1 else 16 * Power16(k - 1) }

  lemma {:induction false} PrintParse(n: nat, k: nat)
    requires n < Power16(k)
    ensures IsHex(Hex(n, k)) && Value(Hex(n, k)) == n
    decreases k
  {
    if k > 0 {
      PrintParse(n / 16, k - 1);
      assert Hex(n, k)[..k - 1] == Hex(n / 16, k - 1);
      assert DigitValue(Digit(n % 16)) == n % 16;
    }
  }

  lemma DigitOfValue(c: char)
    requires DigitValue(c) < 16
    ensures Digit(DigitValue(c)) == LowerChar(c)
  {
  }

  lemma HexOfOneMore(high: nat, digit: nat, k: nat)
    requires digit < 16
    ensures Hex(16 * high + digit, k + 1) == Hex(high, k) + [Digit(digit)]
  {
    assert (16 * high + digit) / 16 == high && (16 * high + digit) % 16 == digit;
  }

  lemma LowerOfOneMore(s: string, c: char)
    ensures Lower(s + [c]) == Lower(s) + [LowerChar(c)]
  {
    assert (s + [c])[..|s|] == s;
  }

  lemma ValueOfOneMore(s: string, c: char)
    requires IsHex(s) && DigitValue(c) < 16
    ensures IsHex(s + [c]) && Value(s + [c]) == 16 * Value(s) + DigitValue(c)
  {
    assert (s + [c])[..|s|] == s;
  }

  lemma ValueStaysBelow(s: string, c: char)
    requires IsHex(s) && DigitValue(c) < 16 && Value(s) < Power16(|s|)
    ensures IsHex(s + [c]) && Value(s + [c]) < Power16(|s + [c]|)
  {
    ValueOfOneMore(s, c);
    assert Power16(|s| + 1) == 16 * Power16(|s|);
  }

  lemma PrintOfOneMore(s: string, c: char, v: nat, d: nat)
    requires d < 16 && Digit(d) == LowerChar(c) && Hex(v, |s|) == Lower(s)
    ensures Hex(16 * v + d, |s| + 1) == Lower(s + [c])
  {
    HexOfOneMore(v, d, |s|);
    LowerOfOneMore(s, c);
  }

  lemma {:induction false} ValueInRange(s: string)
    requires IsHex(s)
    ensures Value(s) < Power16(|s|)
  {
    if s != [] {
      var init, last := s[..|s| - 1], s[|s| - 1];
      assert s == init + [last];
      ValueInRange(init);
      ValueStaysBelow(init, last);
    }
  }

  /** A digit string is the print of its value, but for the case of its letters. */
  lemma {:induction false} ParsePrint(s: string)
    requires IsHex(s)
    ensures Hex(Value(s), |s|) == Lower(s)
  {
    if s != [] {
      var init, last := s[..|s| - 1], s[|s| - 1];
      assert s == init + [last];
      ParsePrint(init);
      ValueOfOneMore(init, last);
      DigitOfValue(last);
      PrintOfOneMore(init, last, Value(init), DigitValue(last));
    }
  }

  lemma PowerOf128()
    ensures Power16(32) == IDS
  {
    assert Power16(8) == 0x1_0000_0000;
    assert Power16(16) == 0x1_0000_0000_0000_0000;
    assert Power16(24) == 0x1_0000_0000_0000_0000_0000_0000;
  }

  // ------------------------------------------------------------------ the hyphenated text

  /** Five groups of 8, 4, 4, 4 and 12 digits. */
  function Dashed(h: string): (t: string)
    requires |h| == 32
    ensures |t| == 36
  {
    h[..8] + "-" + h[8..12] + "-" + h[12..16] + "-" + h[16..20] + "-" + h[20..]
  }

  function Undashed(t: string): (h: string)
    requires |t| == 36
    ensures |h| == 32
  {
    t[..8] + t[9..13] + t[14..18] + t[19..23] + t[24..]
  }

  predicate HasDashes(t: string) {
    |t| == 36 && t[8] == '-' && t[13] == '-' && t[18] == '-' && t[23] == '-'
  }

  lemma DashUndash(h: string)
    requires |h| == 32
    ensures HasDashes(Dashed(h)) && Undashed(Dashed(h)) == h
  {
    var t := Dashed(h);
    assert t[..8] == h[..8] && t[9..13] == h[8..12] && t[14..18] == h[12..16];
    assert t[19..23] == h[16..20] && t[24..] == h[20..];
  }

  lemma UndashDash(t: string)
    requires HasDashes(t)
    ensures Dashed(Undashed(t)) == t
  {
  }

  function Text(id: Id): (t: string)
    ensures |t| == 36
  {
    Dashed(Hex(id, 32))
  }

  /** The 32 digits alone. */
  function ParseDigits(t: string): Option<nat>
    requires |t| == 32
  {
    if IsHex(t) then Some(Value(t)) else None
  }

  function ParseHyphenated(t: string): Option<nat>
    requires |t| == 36
  {
    if HasDashes(t) then ParseDigits(Undashed(t)) else None
  }

  const URN := "urn:uuid:"

  predicate IsBraced(t: string) { |t| == 38 && t[0] == '{' && t[37] == '}' }

  predicate IsUrn(t: string) { |t| == 45 && URN <= t }

  /** The form is told by the length and what wraps the digits. */
  function ParseText(t: string): Option<nat> {
    if |t| == 32 then ParseDigits(t)
    else if |t| == 36 then ParseHyphenated(t)
    else if IsBraced(t) then ParseHyphenated(t[1..37])
    else if IsUrn(t) then ParseHyphenated(t[9..])
    else None
  }

  // ------------------------------------------------------------------ keys

  const PREFIX := "dm:"

  function DmKey(other: Id): string { PREFIX + Text(other) }

  function ParseDmKey(key: string): Option<nat> {
    if PREFIX <= key then ParseText(key[|PREFIX|..]) else None
  }

  lemma LowerOfDashed(t: string)
    requires |t| == 36
    ensures HasDashes(Lower(t)) <==> HasDashes(t)
    ensures Undashed(Lower(t)) == Lower(Undashed(t))
  {
    LowerPointwise(t);
    LowerPointwise(Undashed(t));
  }

  lemma LowerPointwise(s: string)
    ensures forall i :: 0 <= i < |s| ==> Lower(s)[i] == LowerChar(s[i])
  {
    forall i | 0 <= i < |s| ensures Lower(s)[i] == LowerChar(s[i]) { LowerAt(s, i); }
  }

  lemma {:induction false} LowerIsHexToo(s: string)
    ensures IsHex(Lower(s)) <==> IsHex(s)
  {
    if s != [] {
      var init := s[..|s| - 1];
      LowerIsHexToo(init);
      assert Lower(s)[..|s| - 1] == Lower(init);
    }
  }

  lemma DigitsParse(t: string, id: Id)
    requires |t| == 32
    ensures ParseDigits(t) == Some(id) <==> Lower(t) == Hex(id, 32)
  {
    PowerOf128();
    PrintParse(id, 32);
    LowerIsHexToo(t);
    if IsHex(t) {
      ParsePrint(t);
      ValueInRange(t);
      PrintParse(Value(t), 32);
    }
  }

  lemma HyphenatedParses(t: string, id: Id)
    requires |t| == 36
    ensures ParseHyphenated(t) == Some(id) <==> Lower(t) == Text(id)
  {
    PowerOf128();
    PrintParse(id, 32);
    DashUndash(Hex(id, 32));
    LowerOfDashed(t);
    DigitsParse(Undashed(t), id);
    if HasDashes(t) { UndashDash(Lower(t)); }
  }

  /** The spellings of an id, each with its letters in either case: the digits alone, hyphenated,
      hyphenated in braces, and as a URN. */
  predicate Spells(t: string, id: Id) {
    || (|t| == 32 && Lower(t) == Hex(id, 32))
    || (|t| == 36 && Lower(t) == Text(id))
    || (|t| == 38 && t == "{" + t[1..37] + "}" && Lower(t[1..37]) == Text(id))
    || (|t| == 45 && t[..9] == "urn:uuid:" && Lower(t[9..]) == Text(id))
  }

  /** The parser inverts the printer on every 128-bit id, and otherwise accepts exactly the other
      spellings of ids, each as the id it spells. */
  lemma ParsingInvertsPrinting(key: string, id: Id)
    ensures ParseDmKey(DmKey(id)) == Some(id)
    ensures ParseDmKey(key) == Some(id) <==> PREFIX <= key && Spells(key[|PREFIX|..], id)
  {
    SpellingsParse(Text(id), id);
    LowerOfText(id);
    assert DmKey(id)[|PREFIX|..] == Text(id);
    if PREFIX <= key { SpellingsParse(key[|PREFIX|..], id); }
  }

  lemma SpellingsParse(t: string, id: Id)
    ensures ParseText(t) == Some(id) <==> Spells(t, id)
  {
    if |t| == 32 {
      DigitsParse(t, id);
    } else if |t| == 36 {
      HyphenatedParses(t, id);
    } else if IsBraced(t) {
      HyphenatedParses(t[1..37], id);
    } else if IsUrn(t) {
      HyphenatedParses(t[9..], id);
    }
  }

  /** What is printed is in lower case. */
  lemma LowerOfText(id: Id)
    ensures Lower(Text(id)) == Text(id)
  {
    PowerOf128();
    PrintParse(id, 32);
    DashUndash(Hex(id, 32));
    HyphenatedParses(Text(id), id);
  }

  lemma PrintsDiffer(a: Id, b: Id)
    ensures Text(a) == Text(b) <==> a == b
  {
    PowerOf128();
    PrintParse(a, 32);
    PrintParse(b, 32);
    DashUndash(Hex(a, 32));
    DashUndash(Hex(b, 32));
  }

  /** Whatever parses is an id. */
  lemma ParsedKeysAreIds(key: string)
    ensures ParseDmKey(key).Some? ==> ParseDmKey(key).value < IDS
  {
    if ParseDmKey(key).Some? {
      PowerOf128();
      var t := key[|PREFIX|..];
      ValueInRange(if |t| == 32 then t
                   else if |t| == 36 then Undashed(t)
                   else if IsBraced(t) then Undashed(t[1..37])
                   else Undashed(t[9..]));
    }
  }

  // ------------------------------------------------------------------ order

  /** Lexicographic order by character code. */
  predicate LexLe(s: string, t: string) {
    s == [] || (t != [] && (s[0] < t[0] || (s[0] == t[0] && LexLe(s[1..], t[1..]))))
  }

  /** Texts that start with blocks of the same length are ordered by the blocks, then by the rest. */
  lemma {:induction false} LexConcat(x: string, y: string, s: string, t: string)
    requires |x| == |y|
    ensures LexLe(x + s, y + t) <==> if x == y then LexLe(s, t) else LexLe(x, y)
  {
    if x == [] {
      assert x + s == s && y + t == t;
    } else {
      assert (x + s)[1..] == x[1..] + s && (y + t)[1..] == y[1..] + t;
      LexConcat(x[1..], y[1..], s, t);
      assert x == y <==> x[0] == y[0] && x[1..] == y[1..];
    }
  }

  function WithDash(s: string, i: nat): string
    requires i <= |s|
  {
    s[..i] + ("-" + s[i..])
  }

  lemma ADashKeepsTheOrder(s: string, t: string, i: nat)
    requires i <= |s| && i <= |t|
    ensures LexLe(WithDash(s, i), WithDash(t, i)) <==> LexLe(s, t)
  {
    LexConcat(s[..i], t[..i], s[i..], t[i..]);
    LexConcat(s[..i], t[..i], "-" + s[i..], "-" + t[i..]);
    LexConcat("-", "-", s[i..], t[i..]);
    assert s[..i] + s[i..] == s && t[..i] + t[i..] == t;
  }

  /** The hyphens, put in from the back. */
  function Inserted(h: string): string
    requires |h| == 32
  {
    WithDash(WithDash(WithDash(WithDash(h, 20), 16), 12), 8)
  }

  lemma DashedIsInserted(h: string)
    requires |h| == 32
    ensures Dashed(h) == Inserted(h)
  {
    var d1 := WithDash(h, 20);
    var d2 := WithDash(d1, 16);
    assert d2 == h[..16] + "-" + h[16..20] + "-" + h[20..];
    var d3 := WithDash(d2, 12);
    assert d3 == h[..12] + "-" + h[12..16] + "-" + h[16..20] + "-" + h[20..];
  }

  /** Hyphens in the same places do not change the order. */
  lemma DashesKeepTheOrder(g: string, h: string)
    requires |g| == 32 && |h| == 32
    ensures LexLe(Dashed(g), Dashed(h)) <==> LexLe(g, h)
  {
    DashedIsInserted(g);
    DashedIsInserted(h);
    ADashKeepsTheOrder(g, h, 20);
    var g1, h1 := WithDash(g, 20), WithDash(h, 20);
    ADashKeepsTheOrder(g1, h1, 16);
    var g2, h2 := WithDash(g1, 16), WithDash(h1, 16);
    ADashKeepsTheOrder(g2, h2, 12);
    ADashKeepsTheOrder(WithDash(g2, 12), WithDash(h2, 12), 8);
  }

  lemma DigitsAreOrdered(a: nat, b: nat)
    requires a < 16 && b < 16
    ensures LexLe([Digit(a)], [Digit(b)]) <==> a <= b
    ensures Digit(a) == Digit(b) <==> a == b
  {
  }

  lemma {:induction false} HexKeepsTheOrder(a: nat, b: nat, k: nat)
    requires a < Power16(k) && b < Power16(k)
    ensures LexLe(Hex(a, k), Hex(b, k)) <==> a <= b
    decreases k
  {
    if k > 0 {
      HexKeepsTheOrder(a / 16, b / 16, k - 1);
      PrintParse(a / 16, k - 1);
      PrintParse(b / 16, k - 1);
      LexConcat(Hex(a / 16, k - 1), Hex(b / 16, k - 1), [Digit(a % 16)], [Digit(b % 16)]);
      DigitsAreOrdered(a % 16, b % 16);
    }
  }

  /** The lexicographic order of the texts is the numeric order of the ids. */
  lemma TextOrderIsNumericOrder(a: Id, b: Id)
    ensures LexLe(Text(a), Text(b)) <==> a <= b
  {
    PowerOf128();
    HexKeepsTheOrder(a, b, 32);
    DashesKeepTheOrder(Hex(a, 32), Hex(b, 32));
  }

  // ------------------------------------------------------------------ the pair key

  /** The key both parties of a conversation derive: their texts, in text order. */
  function PairKey(a: Id, b: Id): string {
    var x, y := Text(a), Text(b);
    if LexLe(x, y) then "dmp:" + x + ":" + y else "dmp:" + y + ":" + x
  }

  /** The pair is sorted as numbers, so the parties derive the same key, and nobody else does. */
  lemma PairKeysNameUnorderedPairs(a: Id, b: Id, c: Id, d: Id)
    ensures PairKey(a, b) == "dmp:" + Text(if a <= b then a else b) + ":" + Text(if a <= b then b else a)
    ensures PairKey(a, b) == PairKey(b, a)
    ensures PairKey(a, b) == PairKey(c, d) <==> (a, b) == (c, d) || (a, b) == (d, c)
  {
    TextOrderIsNumericOrder(a, b);
    TextOrderIsNumericOrder(b, a);
    TextOrderIsNumericOrder(c, d);
    var lo, hi := if a <= b then a else b, if a <= b then b else a;
    var lo', hi' := if c <= d then c else d, if c <= d then d else c;
    KeyParts(lo, hi);
    KeyParts(lo', hi');
    PrintsDiffer(lo, lo');
    PrintsDiffer(hi, hi');
  }

  lemma KeyParts(lo: Id, hi: Id)
    ensures var key := "dmp:" + Text(lo) + ":" + Text(hi);
            |key| == 77 && key[4..40] == Text(lo) && key[41..] == Text(hi)
  {
    var front := "dmp:" + Text(lo);
    assert front[4..40] == Text(lo) && (front + ":")[4..40] == front[4..40];
    assert ("dmp:" + Text(lo) + ":" + Text(hi))[4..40] == (front + ":")[4..40];
  }
}
