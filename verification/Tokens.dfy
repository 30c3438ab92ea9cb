/**
 Trimming, lower-casing and the entity tokens that turn native identifiers into id
 segments (entityToken of the cot, adsb and cap projectors, which is the same code).
 */
module Tokens {
  import opened Cop

  /** Unicode white space, as strings.TrimSpace removes it. */
  predicate IsSpace(c: char) {
    c == '\t' || c == '\n' || c == '\U{000B}' || c == '\U{000C}' || c == '\r' || c == ' '
    || c == '\U{0085}' || c == '\U{00A0}' || c == '\U{1680}' || '\U{2000}' <= c <= '\U{200A}'
    || c == '\U{2028}' || c == '\U{2029}' || c == '\U{202F}' || c == '\U{205F}' || c == '\U{3000}'
  }

  function TrimLeft(s: string): string {
    if s != "" && IsSpace(s[0]) then TrimLeft(s[1..]) else s
  }

  function TrimRight(s: string): string {
    if s != "" && IsSpace(s[|s| - 1]) then TrimRight(s[..|s| - 1]) else s
  }

  lemma TrimLeftIsSuffix(s: string)
    ensures var r := TrimLeft(s); |r| <= |s| && r == s[|s| - |r|..] && (r != "" ==> !IsSpace(r[0]))
  {}

  lemma TrimRightIsPrefix(s: string)
    ensures var r := TrimRight(s); |r| <= |s| && r == s[..|r|] && (r != "" ==> !IsSpace(r[|r| - 1]))
  {}

  function TrimSpace(s: string): string {
    TrimRight(TrimLeft(s))
  }

  /** White space by code point, as the Unicode property White_Space lists it. */
  lemma WhiteSpaceIs(c: char)
    ensures IsSpace(c) <==>
      c as int in {9, 10, 11, 12, 13, 32, 133, 160, 5760, 8232, 8233, 8239, 8287, 12288} || 8192 <= c as int <= 8202
  {}

  predicate IsBlank(s: string) {
    forall i :: 0 <= i < |s| ==> IsSpace(s[i])
  }

  lemma {:induction false} TrimLeftDropsBlanks(s: string)
    ensures |TrimLeft(s)| <= |s| && IsBlank(s[..|s| - |TrimLeft(s)|])
  {
    hide IsSpace;
    TrimLeftIsSuffix(s);
    if s != "" && IsSpace(s[0]) {
      TrimLeftDropsBlanks(s[1..]);
      assert TrimLeft(s) == TrimLeft(s[1..]);
      BlankInFront(s, |s| - |TrimLeft(s)|);
    }
  }

  lemma BlankInFront(s: string, n: nat)
    requires 0 < n <= |s| && IsSpace(s[0]) && IsBlank(s[1..][..n - 1])
    ensures IsBlank(s[..n])
  {
    hide IsSpace;
    assert s[..n] == [s[0]] + s[1..][..n - 1];
  }

  lemma {:induction false} TrimRightDropsBlanks(s: string)
    ensures |TrimRight(s)| <= |s| && IsBlank(s[|TrimRight(s)|..])
  {
    hide IsSpace;
    TrimRightIsPrefix(s);
    if s != "" && IsSpace(s[|s| - 1]) {
      TrimRightDropsBlanks(s[..|s| - 1]);
      TrimRightIsPrefix(s[..|s| - 1]);
      assert s == s[..|s| - 1] + [s[|s| - 1]];
    }
  }

  /** A trimmed text is what stands between the blanks at both ends. */
  lemma TrimSpaceIs(s: string) returns (before: string, after: string)
    ensures s == before + TrimSpace(s) + after && IsBlank(before) && IsBlank(after)
    ensures var t := TrimSpace(s); t != "" ==> !IsSpace(t[0]) && !IsSpace(t[|t| - 1])
  {
    hide IsSpace, TrimLeft, TrimRight;
    var l := TrimLeft(s);
    var t := TrimRight(l);
    TrimLeftIsSuffix(s);
    TrimRightIsPrefix(l);
    TrimLeftDropsBlanks(s);
    TrimRightDropsBlanks(l);
    before, after := s[..|s| - |l|], l[|t|..];
  }

  lemma TrimOfEmpty()
    ensures TrimSpace("") == ""
  {}

  /** Trimming twice is trimming once. */
  lemma TrimIsIdempotent(s: string)
    ensures TrimSpace(TrimSpace(s)) == TrimSpace(s)
  {
    var l := TrimLeft(s);
    var r := TrimRight(l);
    TrimLeftIsSuffix(s);
    TrimRightIsPrefix(l);
    if r != "" {
      assert r[0] == l[0];
    }
  }

  function TrimDashesLeft(s: string): string {
    if s != "" && s[0] == '-' then TrimDashesLeft(s[1..]) else s
  }

  function TrimDashesRight(s: string): string {
    if s != "" && s[|s| - 1] == '-' then TrimDashesRight(s[..|s| - 1]) else s
  }

  lemma TrimDashesLeftIsSuffix(s: string)
    ensures var r := TrimDashesLeft(s); |r| <= |s| && r == s[|s| - |r|..] && (r != "" ==> r[0] != '-')
  {}

  lemma TrimDashesRightIsPrefix(s: string)
    ensures var r := TrimDashesRight(s); |r| <= |s| && r == s[..|r|] && (r != "" ==> r[|r| - 1] != '-')
  {}

  function TrimDashes(s: string): string {
    TrimDashesRight(TrimDashesLeft(s))
  }

  predicate AllDashes(s: string) {
    forall i :: 0 <= i < |s| ==> s[i] == '-'
  }

  lemma {:induction false} TrimDashesLeftDropsDashes(s: string)
    ensures |TrimDashesLeft(s)| <= |s| && AllDashes(s[..|s| - |TrimDashesLeft(s)|])
  {
    TrimDashesLeftIsSuffix(s);
    if s != "" && s[0] == '-' {
      TrimDashesLeftDropsDashes(s[1..]);
      TrimDashesLeftIsSuffix(s[1..]);
      assert s == [s[0]] + s[1..];
    }
  }

  lemma {:induction false} TrimDashesRightDropsDashes(s: string)
    ensures |TrimDashesRight(s)| <= |s| && AllDashes(s[|TrimDashesRight(s)|..])
  {
    TrimDashesRightIsPrefix(s);
    if s != "" && s[|s| - 1] == '-' {
      TrimDashesRightDropsDashes(s[..|s| - 1]);
      TrimDashesRightIsPrefix(s[..|s| - 1]);
      assert s == s[..|s| - 1] + [s[|s| - 1]];
    }
  }

  /** Without the dashes at both ends. */
  lemma TrimDashesIs(s: string) returns (before: string, after: string)
    ensures s == before + TrimDashes(s) + after && AllDashes(before) && AllDashes(after)
    ensures var t := TrimDashes(s); t != "" ==> t[0] != '-' && t[|t| - 1] != '-'
  {
    hide TrimDashesLeft, TrimDashesRight;
    var l := TrimDashesLeft(s);
    var t := TrimDashesRight(l);
    TrimDashesLeftIsSuffix(s);
    TrimDashesRightIsPrefix(l);
    TrimDashesLeftDropsDashes(s);
    TrimDashesRightDropsDashes(l);
    before, after := s[..|s| - |l|], l[|t|..];
  }

  /**
   The lower case of a character as far as an entity token can tell: Unicode lower-casing
   reaches the ASCII letters from A to Z, from the dotted capital I and from the Kelvin sign.
   */
  function Lower(c: char): char {
    if 'A' <= c <= 'Z' then 'a' + (c - 'A')
    else if c == '\U{0130}' then 'i'
    else if c == '\U{212A}' then 'k'
    else c
  }

  /** By code point: capitals lie 32 below their small letters. */
  lemma LowerIs(c: char)
    ensures Lower(c) as int ==
      if 65 <= c as int <= 90 then c as int + 32 else if c as int == 304 then 105 else if c as int == 8490 then 107 else c as int
  {}

  function LowerAll(s: string): string {
    seq(|s|, i requires 0 <= i < |s| => Lower(s[i]))
  }

  predicate IsTokenChar(c: char) {
    'a' <= c <= 'z' || '0' <= c <= '9' || c == '-' || c == '_'
  }

  /** Characters of a token are kept in lower case, each run of other characters becomes a dash. */
  function Dashed(s: string, lastDash: bool): string {
    if s == "" then ""
    else if IsTokenChar(Lower(s[0])) then [Lower(s[0])] + Dashed(s[1..], false)
    else if lastDash then Dashed(s[1..], true)
    else ['-'] + Dashed(s[1..], true)
  }

  function EntityToken(value: string): string {
    var token := TrimDashes(Dashed(TrimSpace(value), false));
    if token == "" then "unknown" else token
  }

  method BuildEntityToken(value: string) returns (token: string)
    ensures token == EntityToken(value)
  {
    hide Dashed, Lower, IsSpace, TrimDashes, TrimSpace;
    var s := TrimSpace(value);
    var builder := "";
    var lastDash := false;
    for i := 0 to |s|
      invariant builder + Dashed(s[i..], lastDash) == Dashed(s, false)
    {
      DashedStep(s, i, lastDash);
      var r := Lower(s[i]);
      if ('a' <= r && r <= 'z') || ('0' <= r && r <= '9') || r == '-' || r == '_' {
        builder := builder + [r];
        lastDash := false;
        continue;
      }
      if !lastDash {
        builder := builder + ['-'];
        lastDash := true;
      }
    }
    DashedEnd(s, lastDash);
    assert builder + "" == builder;
    token := TrimDashes(builder);
    if token == "" {
      token := "unknown";
    }
  }

  lemma DashedStep(s: string, i: nat, lastDash: bool)
    requires i < |s|
    ensures var (kept, rest) := (Lower(s[i]), s[i + 1..]);
      Dashed(s[i..], lastDash) ==
        if IsTokenChar(kept) then [kept] + Dashed(rest, false)
        else if lastDash then Dashed(rest, true)
        else ['-'] + Dashed(rest, true)
  {
    hide IsTokenChar, Lower;
    assert s[i..][0] == s[i] && s[i..][1..] == s[i + 1..];
  }

  lemma DashedEnd(s: string, lastDash: bool)
    ensures Dashed(s[|s|..], lastDash) == ""
  {}

  predicate AllTokenChars(s: string) {
    forall i :: 0 <= i < |s| ==> IsTokenChar(s[i])
  }

  /** Only token characters, and no dash at either end. */
  ghost predicate IsToken(s: string) {
    s != "" && AllTokenChars(s) && s[0] != '-' && s[|s| - 1] != '-'
  }

  lemma {:induction false} DashedKeepsTokenChars(s: string, lastDash: bool)
    ensures AllTokenChars(Dashed(s, lastDash))
  {
    if s != "" {
      DashedKeepsTokenChars(s[1..], false);
      DashedKeepsTokenChars(s[1..], true);
    }
  }

  lemma TrimmedIsToken(s: string)
    requires AllTokenChars(s)
    ensures TrimDashes(s) == "" || IsToken(TrimDashes(s))
  {
    hide IsTokenChar;
    var left := TrimDashesLeft(s);
    var token := TrimDashesRight(left);
    TrimDashesLeftIsSuffix(s);
    TrimDashesRightIsPrefix(left);
    assert AllTokenChars(left);
    if token != "" {
      assert token[0] == left[0];
    }
  }

  lemma TokensAreSegments(s: string)
    requires AllTokenChars(s)
    ensures IsSegment(s)
  {}

  /** Every value becomes a token: a non-empty segment without dots, blanks or capitals. */
  lemma EntityTokenIsToken(value: string)
    ensures IsToken(EntityToken(value)) && IsSegment(EntityToken(value))
  {
    hide TrimSpace, Dashed, TrimDashes;
    DashedKeepsTokenChars(TrimSpace(value), false);
    TrimmedIsToken(Dashed(TrimSpace(value), false));
    TokensAreSegments(EntityToken(value));
  }

  lemma {:induction false} DashedToken(s: string, lastDash: bool)
    requires AllTokenChars(s)
    ensures Dashed(s, lastDash) == s
  {
    if s != "" {
      assert IsTokenChar(s[0]) && Lower(s[0]) == s[0];
      DashedToken(s[1..], false);
      assert s == [s[0]] + s[1..];
    }
  }

  lemma TokensAreTrimmed(s: string)
    requires IsToken(s)
    ensures TrimSpace(s) == s
  {
    assert IsTokenChar(s[0]) && IsTokenChar(s[|s| - 1]);
  }

  /** A token stands for itself. */
  lemma TokensAreFixed(s: string)
    requires IsToken(s)
    ensures EntityToken(s) == s
  {
    assert IsTokenChar(s[0]) && IsTokenChar(s[|s| - 1]);
    assert TrimLeft(s) == s && TrimSpace(s) == s;
    DashedToken(s, false);
    assert TrimDashesLeft(s) == s && TrimDashes(s) == s;
  }

  /** Tokenising twice is tokenising once. */
  lemma EntityTokenIsIdempotent(value: string)
    ensures EntityToken(EntityToken(value)) == EntityToken(value)
  {
    EntityTokenIsToken(value);
    TokensAreFixed(EntityToken(value));
  }

  /** No ASCII letter, digit or underscore. */
  predicate IsNameless(s: string) {
    forall i :: 0 <= i < |s| ==> Lower(s[i]) == '-' || !IsTokenChar(Lower(s[i]))
  }

  lemma TrimmedIsNameless(s: string)
    requires IsNameless(s)
    ensures IsNameless(TrimSpace(s))
  {
    hide Lower, IsTokenChar, IsSpace;
    TrimLeftIsSuffix(s);
    assert IsNameless(TrimLeft(s));
    TrimRightIsPrefix(TrimLeft(s));
  }

  lemma {:induction false} NamelessIsDashed(s: string, lastDash: bool)
    requires IsNameless(s)
    ensures AllDashes(Dashed(s, lastDash))
  {
    hide Lower, IsTokenChar;
    if s != "" {
      NamelessIsDashed(s[1..], false);
      NamelessIsDashed(s[1..], true);
    }
  }

  lemma DashesAreTrimmed(s: string)
    requires AllDashes(s)
    ensures TrimDashes(s) == ""
  {
    TrimDashesLeftIsSuffix(s);
    assert AllDashes(TrimDashesLeft(s));
  }

  /** A value without ASCII letters, digits and underscores leaves no name behind. */
  lemma NamelessIsUnknown(value: string)
    requires IsNameless(value)
    ensures EntityToken(value) == "unknown"
  {
    hide IsNameless, TrimSpace, Dashed, TrimDashes;
    TrimmedIsNameless(value);
    NamelessIsDashed(TrimSpace(value), false);
    DashesAreTrimmed(Dashed(TrimSpace(value), false));
  }

  function FirstNonEmpty(values: seq<string>): string {
    if values == [] then ""
    else if TrimSpace(values[0]) != "" then TrimSpace(values[0])
    else FirstNonEmpty(values[1..])
  }

  // ---------- Decimal numerals ----------

  function Digit(d: nat): char
    requires d < 10
  {
    '0' + d as char
  }

  function Decimal(n: nat): string {
    if n < 10 then [Digit(n)] else Decimal(n / 10) + [Digit(n % 10)]
  }

  lemma {:induction false} DecimalIsSegment(n: nat)
    ensures Decimal(n) != "" && IsSegment(Decimal(n))
  {
    if n >= 10 {
      DecimalIsSegment(n / 10);
    }
  }

  /** Digits only, and no zero in front of others. */
  lemma {:induction false} DecimalIsNumeral(n: nat)
    ensures var s := Decimal(n);
      |s| >= 1 && (forall i :: 0 <= i < |s| ==> '0' <= s[i] <= '9') && (s[0] == '0' <==> n == 0) && (n == 0 ==> |s| == 1)
  {
    if n >= 10 {
      DecimalIsNumeral(n / 10);
    }
  }

  /** The number a string of digits stands for, leading zeros included. */
  function NumberOf(s: string): int {
    if s == "" then 0 else NumberOf(s[..|s| - 1]) * 10 + (s[|s| - 1] as int - '0' as int)
  }

  lemma {:induction false} DecimalReadsBack(n: nat)
    ensures NumberOf(Decimal(n)) == n
  {
    var s := Decimal(n);
    if n < 10 {
      assert NumberOf(s[..0]) == 0;
    } else {
      assert s[..|s| - 1] == Decimal(n / 10);
      DecimalReadsBack(n / 10);
    }
  }

  lemma DecimalInjective(m: nat, n: nat)
    requires Decimal(m) == Decimal(n)
    ensures m == n
  {
    DecimalReadsBack(m);
    DecimalReadsBack(n);
  }

  /** A number padded with zeros to at least the given width, as %08d writes it. */
  function Padded(s: string, width: nat): string
    decreases width - |s|
  {
    if |s| >= width then s else Padded(['0'] + s, width)
  }

  lemma {:induction false} LeadingZero(s: string)
    ensures NumberOf(['0'] + s) == NumberOf(s)
  {
    var t := ['0'] + s;
    if s == "" {
      assert t[..0] == "";
    } else {
      assert t[..|t| - 1] == ['0'] + s[..|s| - 1];
      LeadingZero(s[..|s| - 1]);
    }
  }

  lemma {:induction false} PaddingKeepsNumber(s: string, width: nat)
    ensures NumberOf(Padded(s, width)) == NumberOf(s)
    decreases width - |s|
  {
    if |s| < width {
      LeadingZero(s);
      PaddingKeepsNumber(['0'] + s, width);
    }
  }

  /** Zeros in front, up to the width and no further. */
  lemma {:induction false} PaddedIs(s: string, width: nat)
    ensures var p := Padded(s, width);
      |p| == (if |s| < width then width else |s|) && p[|p| - |s|..] == s && forall i :: 0 <= i < |p| - |s| ==> p[i] == '0'
    decreases width - |s|
  {
    if |s| < width {
      PaddedIs(['0'] + s, width);
      var p := Padded(s, width);
      assert p[|p| - |s|..] == p[|p| - |s| - 1..][1..] == s;
      assert p[|p| - |s| - 1] == p[|p| - |s| - 1..][0] == '0';
    }
  }
}
