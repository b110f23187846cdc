/** Routing keys: a selector, a dot, and a random identifier without dots. */
module RoutingKey {

  /** The last dot's index, or -1. */
  function LastDot(key: string): (i: int)
    ensures -1 <= i < |key|
    ensures i >= 0 ==> key[i] == '.'
    ensures forall j :: i < j < |key| ==> key[j] != '.'
  {
    if key == "" then -1
    else if key[|key| - 1] == '.' then |key| - 1
    else LastDot(key[..|key| - 1])
  }

  function Selector(key: string): string {
    var i := LastDot(key);
    if i < 0 then key else key[..i]
  }

  function MessageId(key: string): string {
    var i := LastDot(key);
    if i < 0 then "" else key[i + 1..]
  }

  /** The split undoes the join of any selector with any dot-free id, and nothing else
      gives those two parts. */
  lemma SplitUndoesJoin(selector: string, id: string, key: string)
    requires '.' !in id
    ensures key == selector + "." + id <==>
            '.' in key && Selector(key) == selector && MessageId(key) == id
  {
    var i := LastDot(key);
    if key == selector + "." + id {
      assert key[|selector|] == '.';
      assert forall j :: |selector| < j < |key| ==> key[j] == id[j - |selector| - 1];
      assert i == |selector|;
    }
    if '.' in key {
      assert key == key[..i] + "." + key[i + 1..];
    }
  }

  /** A key without a dot is all selector. */
  lemma NoDotNoId(key: string)
    ensures '.' !in key <==> Selector(key) == key
    ensures '.' !in key ==> MessageId(key) == ""
  {
  }

  // -------------------------------------------------------------------- newID

  const HEX := "0123456789abcdef"

  function HexByte(b: bv8): string {
    [HEX[(b >> 4) as int], HEX[(b & 0x0f) as int]]
  }

  /** The value of a lower-case hexadecimal digit. */
  function DigitValue(d: char): int {
    if '0' <= d <= '9' then d as int - '0' as int else d as int - 'a' as int + 10
  }

  lemma DigitsOfNibbles(k: nat)
    requires k < 16
    ensures DigitValue(HEX[k]) == k
    ensures HEX[k] in "0123456789" || HEX[k] in "abcdef"
  {
  }

  /** Two digits of a byte, the high one first. */
  lemma HexByteValue(b: bv8)
    ensures DigitValue(HexByte(b)[0]) == (b >> 4) as int && DigitValue(HexByte(b)[1]) == (b & 0x0f) as int
  {
    DigitsOfNibbles((b >> 4) as int);
    DigitsOfNibbles((b & 0x0f) as int);
  }

  function HexBytes(bs: seq<bv8>): (s: string)
    ensures |s| == 2 * |bs|
  {
    if bs == [] then "" else HexByte(bs[0]) + HexBytes(bs[1..])
  }

  /** The canonical text form of 16 bytes. */
  function Canonical(b: seq<bv8>): string
    requires |b| == 16
  {
    HexBytes(b[0..4]) + "-" + HexBytes(b[4..6]) + "-" + HexBytes(b[6..8]) + "-" + HexBytes(b[8..10])
    + "-" + HexBytes(b[10..16])
  }

  function Version4(x: bv8): bv8 {
    (x & 0x0f) | 0x40
  }

  function Variant10(x: bv8): bv8 {
    (x & 0x3f) | 0x80
  }

  function Masked(b: seq<bv8>): seq<bv8>
    requires |b| == 16
  {
    b[6 := Version4(b[6])][8 := Variant10(b[8])]
  }

  predicate IsHex(s: string) {
    forall i :: 0 <= i < |s| ==> s[i] in HEX
  }

  lemma {:induction false} HexIsHex(bs: seq<bv8>)
    ensures IsHex(HexBytes(bs))
  {
    if bs != [] { HexIsHex(bs[1..]); }
  }

  lemma NibbleInjective(x: bv8, y: bv8)
    requires x < 16 && y < 16 && HEX[x as int] == HEX[y as int]
    ensures x == y
  {
    assert forall i, j :: 0 <= i < j < 16 ==> HEX[i] != HEX[j];
  }

  lemma FromNibbles(a: bv8, b: bv8)
    requires a >> 4 == b >> 4 && a & 0x0f == b & 0x0f
    ensures a == b
  {
  }

  lemma HexByteInjective(a: bv8, b: bv8)
    requires HexByte(a) == HexByte(b)
    ensures a == b
  {
    assert HexByte(a)[0] == HexByte(b)[0] && HexByte(a)[1] == HexByte(b)[1];
    NibbleInjective(a >> 4, b >> 4);
    NibbleInjective(a & 0x0f, b & 0x0f);
    FromNibbles(a, b);
  }

  lemma {:induction false} HexBytesAppend(a: seq<bv8>, b: seq<bv8>)
    ensures HexBytes(a + b) == HexBytes(a) + HexBytes(b)
  {
    if a == [] {
      assert a + b == b;
    } else {
      assert (a + b)[1..] == a[1..] + b;
      HexBytesAppend(a[1..], b);
    }
  }

  lemma {:induction false} HexBytesInjective(a: seq<bv8>, b: seq<bv8>)
    requires HexBytes(a) == HexBytes(b)
    ensures a == b
  {
    assert |a| == |b|;
    if a != [] {
      assert HexBytes(a)[..2] == HexByte(a[0]) && HexBytes(b)[..2] == HexByte(b[0]);
      assert HexBytes(a)[2..] == HexBytes(a[1..]) && HexBytes(b)[2..] == HexBytes(b[1..]);
      HexByteInjective(a[0], b[0]);
      HexBytesInjective(a[1..], b[1..]);
    }
  }

  /** The hexadecimal digits of the canonical form, without the dashes. */
  function Digits(id: string): string
    requires |id| == 36
  {
    id[0..8] + id[9..13] + id[14..18] + id[19..23] + id[24..36]
  }

  lemma DashesOut(a: string, b: string, c: string, d: string, e: string)
    requires |a| == 8 && |b| == |c| == |d| == 4 && |e| == 12
    ensures var id := a + "-" + b + "-" + c + "-" + d + "-" + e;
      && |id| == 36 && id[8] == id[13] == id[18] == id[23] == '-'
      && Digits(id) == a + b + c + d + e
  {
    var id := a + "-" + b + "-" + c + "-" + d + "-" + e;
    assert id[0..8] == a;
    assert id[9..13] == b;
    assert id[14..18] == c;
    assert id[19..23] == d;
    assert id[24..36] == e;
  }

  lemma HexBytesOfFive(a: seq<bv8>, b: seq<bv8>, c: seq<bv8>, d: seq<bv8>, e: seq<bv8>)
    ensures HexBytes(a + b + c + d + e) == HexBytes(a) + HexBytes(b) + HexBytes(c) + HexBytes(d) + HexBytes(e)
  {
    HexBytesAppend(a, b);
    HexBytesAppend(a + b, c);
    HexBytesAppend(a + b + c, d);
    HexBytesAppend(a + b + c + d, e);
  }

  lemma CanonicalDigits(b: seq<bv8>)
    requires |b| == 16
    ensures var id := Canonical(b);
      && |id| == 36 && id[8] == id[13] == id[18] == id[23] == '-'
      && Digits(id) == HexBytes(b)
  {
    DashesOut(HexBytes(b[0..4]), HexBytes(b[4..6]), HexBytes(b[6..8]), HexBytes(b[8..10]), HexBytes(b[10..16]));
    HexBytesOfFive(b[0..4], b[4..6], b[6..8], b[8..10], b[10..16]);
    assert b == b[0..4] + b[4..6] + b[6..8] + b[8..10] + b[10..16];
  }

  /** Masking sets the version and the variant and leaves every other bit. */
  lemma MaskedBits(x: bv8)
    ensures Version4(x) & 0x0f == x & 0x0f && Version4(x) >> 4 == 4
    ensures Variant10(x) & 0x3f == x & 0x3f && Variant10(x) & 0xc0 == 0x80
  {
  }

  lemma MaskedEqually(x: bv8, y: bv8)
    ensures Version4(x) == Version4(y) <==> x & 0x0f == y & 0x0f
    ensures Variant10(x) == Variant10(y) <==> x & 0x3f == y & 0x3f
  {
    MaskedBits(x);
    MaskedBits(y);
  }

  lemma {:induction false} HexDigitAt(bs: seq<bv8>, i: nat)
    requires i < |bs|
    ensures HexBytes(bs)[2 * i] == HexByte(bs[i])[0]
  {
    if i > 0 { HexDigitAt(bs[1..], i - 1); }
  }

  /** The 36-character version-4 form of section 5.4 of RFC 9562: hexadecimal digits and four
      dashes, version digit 4, variant digit 8, 9, a or b. */
  predicate IsVersion4(id: string) {
    && |id| == 36 && id[8] == id[13] == id[18] == id[23] == '-'
    && IsHex(Digits(id)) && id[14] == '4' && id[19] in "89ab"
  }

  lemma NewIDForm(b: seq<bv8>)
    requires |b| == 16
    ensures IsVersion4(Canonical(Masked(b))) && '.' !in Canonical(Masked(b))
  {
    var m := Masked(b);
    var id := Canonical(m);
    CanonicalDigits(m);
    HexIsHex(m);
    MaskedDigits(b);
    assert id[14] == Digits(id)[12] && id[19] == Digits(id)[16];
    assert '.' !in Digits(id);
    NoDot(id);
  }

  lemma MaskedDigits(b: seq<bv8>)
    requires |b| == 16
    ensures HexBytes(Masked(b))[12] == '4' && HexBytes(Masked(b))[16] in "89ab"
  {
    var m := Masked(b);
    HexDigitAt(m, 6);
    HexDigitAt(m, 8);
    VersionDigit(b[6]);
    VariantDigit(b[8]);
  }

  lemma VersionDigit(x: bv8)
    ensures HexByte(Version4(x))[0] == '4'
  {
    MaskedBits(x);
  }

  lemma VariantDigit(x: bv8)
    ensures HexByte(Variant10(x))[0] in "89ab"
  {
    var y := Variant10(x) >> 4;
    assert y == 8 || y == 9 || y == 10 || y == 11;
  }

  lemma NoDot(id: string)
    requires |id| == 36 && id[8] == id[13] == id[18] == id[23] == '-' && '.' !in Digits(id)
    ensures '.' !in id
  {
    assert id == id[0..8] + [id[8]] + id[9..13] + [id[13]] + id[14..18] + [id[18]] + id[19..23] + [id[23]] + id[24..36];
  }

  /** A version-4 identifier from 16 random bytes, masked in place: always of that form and
      without a dot, whatever the bytes. */
  method NewID(b: array<bv8>) returns (id: string)
    requires b.Length == 16
    modifies b
    ensures IsVersion4(id) && '.' !in id
    ensures b[..] == Masked(old(b[..])) && id == Canonical(b[..])
  {
    ghost var drawn := b[..];
    b[6] := (b[6] & 0x0f) | 0x40;
    b[8] := (b[8] & 0x3f) | 0x80;
    assert b[..] == Masked(drawn);
    NewIDForm(drawn);
    id := Canonical(b[..]);
  }

  /** A published key gives back its selector and its id, whatever the selector. */
  lemma PublishedKeySplits(selector: string, b: seq<bv8>)
    requires |b| == 16
    ensures var id := Canonical(Masked(b));
      Selector(selector + "." + id) == selector && MessageId(selector + "." + id) == id
  {
    NewIDForm(b);
    var id := Canonical(Masked(b));
    SplitUndoesJoin(selector, id, selector + "." + id);
  }

  /** The two draws agree on the 122 bits that are not masked. */
  predicate AgreeUnmasked(a: seq<bv8>, b: seq<bv8>)
    requires |a| == |b| == 16
  {
    && a[..6] == b[..6] && a[7] == b[7] && a[9..] == b[9..]
    && a[6] & 0x0f == b[6] & 0x0f && a[8] & 0x3f == b[8] & 0x3f
  }

  lemma CanonicalInjective(a: seq<bv8>, b: seq<bv8>)
    requires |a| == |b| == 16 && Canonical(a) == Canonical(b)
    ensures a == b
  {
    CanonicalDigits(a);
    CanonicalDigits(b);
    HexBytesInjective(a, b);
  }

  lemma SameParts(m: seq<bv8>, n: seq<bv8>)
    requires |m| == |n| == 16
    ensures m == n <==> m[..6] == n[..6] && m[6] == n[6] && m[7] == n[7] && m[8] == n[8] && m[9..] == n[9..]
  {
    assert m == m[..6] + [m[6]] + [m[7]] + [m[8]] + m[9..];
    assert n == n[..6] + [n[6]] + [n[7]] + [n[8]] + n[9..];
  }

  lemma MaskedAgree(a: seq<bv8>, b: seq<bv8>)
    requires |a| == |b| == 16
    ensures Masked(a) == Masked(b) <==> AgreeUnmasked(a, b)
  {
    MaskedEqually(a[6], b[6]);
    MaskedEqually(a[8], b[8]);
    MaskedParts(a);
    MaskedParts(b);
    SameParts(Masked(a), Masked(b));
  }

  lemma MaskedParts(a: seq<bv8>)
    requires |a| == 16
    ensures var m := Masked(a);
      m[..6] == a[..6] && m[6] == Version4(a[6]) && m[7] == a[7] && m[8] == Variant10(a[8]) && m[9..] == a[9..]
  {
  }

  /** Two draws give one id exactly if they agree on every bit that is not masked. */
  lemma IdsCollideExactly(a: seq<bv8>, b: seq<bv8>)
    requires |a| == |b| == 16
    ensures Canonical(Masked(a)) == Canonical(Masked(b)) <==> AgreeUnmasked(a, b)
  {
    MaskedAgree(a, b);
    if Canonical(Masked(a)) == Canonical(Masked(b)) { CanonicalInjective(Masked(a), Masked(b)); }
  }
}
