/**
 * `adjustColorBrightness` (script.js, firefox/script.js and
 * firefox/settings-script.js): shift every channel of a CSS `#rrggbb` colour
 * (CSS Color Module Level 4, section 5.2) by the same amount, clamp it to
 * 0..255 and print the colour back as `#` and six lower-case hex digits.
 */
module Color {
  import opened Text

  /** A hex digit of either case, as `parseInt(_, 16)` reads it. */
  predicate IsHexDigit(c: char) {
    DigitValue(c) < 16
  }

  /** A digit `toString(16)` prints. */
  predicate IsLowerHexDigit(c: char) {
    '0' <= c <= '9' || 'a' <= c <= 'f'
  }

  /** `#` and six hex digits: what a colour input yields. */
  predicate IsHexColor(s: string) {
    |s| == 7 && s[0] == '#' && forall i :: 1 <= i < 7 ==> IsHexDigit(s[i])
  }

  predicate IsLowerHexColor(s: string) {
    |s| == 7 && s[0] == '#' && forall i :: 1 <= i < 7 ==> IsLowerHexDigit(s[i])
  }

  function Pow16(k: nat): (p: nat)
    ensures p > 0
  {
    if k == 0 then 1 else 16 * Pow16(k - 1)
  }

  function HexDigit(d: nat): (c: char)
    requires d < 16
    ensures IsLowerHexDigit(c) && DigitValue(c) == d
  {
    if d < 10 then ('0' as int + d) as char else ('a' as int + d - 10) as char
  }

  lemma HexDigitOfValue(c: char)
    requires IsLowerHexDigit(c)
    ensures DigitValue(c) < 16 && HexDigit(DigitValue(c)) == c
  {
  }

  /** `n.toString(16)`: lower-case hex digits, no leading zero. */
  function HexString(n: nat): (r: string)
    ensures r != []
    ensures forall i :: 0 <= i < |r| ==> IsLowerHexDigit(r[i])
  {
    if n < 16 then [HexDigit(n)] else HexString(n / 16) + [HexDigit(n % 16)]
  }

  /** The last `k` hex digits of `n`, padded with zeros on the left. */
  function HexWidth(n: nat, k: nat): (r: string)
    ensures |r| == k
    ensures forall i :: 0 <= i < |r| ==> IsLowerHexDigit(r[i])
  {
    if k == 0 then [] else HexWidth(n / 16, k - 1) + [HexDigit(n % 16)]
  }

  lemma DivMod16(n: nat, a: nat, r: nat)
    requires n == 16 * a + r && r < 16
    ensures n / 16 == a && n % 16 == r
  {
  }

  lemma DivBelowPow16(lo: nat, k: nat)
    requires k > 0 && lo < Pow16(k)
    ensures lo / 16 < Pow16(k - 1)
  {
  }

  /** One hex digit peeled off `h * 16^k + lo`. */
  lemma ShiftStep(h: nat, lo: nat, k: nat)
    requires k > 0 && lo < Pow16(k)
    ensures (h * Pow16(k) + lo) / 16 == h * Pow16(k - 1) + lo / 16
    ensures (h * Pow16(k) + lo) % 16 == lo % 16
    ensures lo / 16 < Pow16(k - 1)
  {
    var p := Pow16(k - 1);
    assert Pow16(k) == 16 * p;
    assert h * (16 * p) == 16 * (h * p);
    DivMod16(h * Pow16(k) + lo, h * p + lo / 16, lo % 16);
    DivBelowPow16(lo, k);
  }

  lemma AtLeastPow16(h: nat, k: nat)
    requires h > 0
    ensures h * Pow16(k) >= Pow16(k)
  {
  }

  /** Printing `h * 16^k + lo` prints `h` and then `lo` padded to `k` digits. */
  lemma {:induction false} HexStringShift(h: nat, lo: nat, k: nat)
    requires h > 0 && lo < Pow16(k)
    ensures HexString(h * Pow16(k) + lo) == HexString(h) + HexWidth(lo, k)
  {
    if k > 0 {
      var n := h * Pow16(k) + lo;
      ShiftStep(h, lo, k);
      AtLeastPow16(h, k);
      assert n >= 16;
      HexStringShift(h, lo / 16, k - 1);
      assert HexString(n) == HexString(h * Pow16(k - 1) + lo / 16) + [HexDigit(lo % 16)];
    }
  }

  /** Padding `a * 16^m + b` to `k + m` digits is `a` padded to `k` and `b` padded to `m`. */
  lemma {:induction false} HexWidthConcat(a: nat, b: nat, k: nat, m: nat)
    requires b < Pow16(m)
    ensures HexWidth(a * Pow16(m) + b, k + m) == HexWidth(a, k) + HexWidth(b, m)
  {
    if m > 0 {
      ShiftStep(a, b, m);
      HexWidthConcat(a, b / 16, k, m - 1);
    }
  }

  /** Reading back `n` padded to `k` digits gives `n`. */
  lemma {:induction false} DigitsValueOfHexWidth(n: nat, k: nat)
    requires n < Pow16(k)
    ensures DigitsValue(HexWidth(n, k), 16) == n
  {
    if k > 0 {
      var s := HexWidth(n, k);
      assert s[..|s| - 1] == HexWidth(n / 16, k - 1);
      DivBelowPow16(n, k);
      DigitsValueOfHexWidth(n / 16, k - 1);
    }
  }

  /** Padding the value of a lower-case digit string to its own length gives the string back. */
  lemma {:induction false} HexWidthOfDigitsValue(s: string)
    requires forall i :: 0 <= i < |s| ==> IsLowerHexDigit(s[i])
    ensures HexWidth(DigitsValue(s, 16), |s|) == s
  {
    if s != [] {
      var init, last := s[..|s| - 1], s[|s| - 1];
      HexDigitOfValue(last);
      var v := DigitsValue(s, 16);
      DivMod16(v, DigitsValue(init, 16), DigitValue(last));
      HexWidthOfDigitsValue(init);
      assert s == init + [last];
    }
  }

  lemma {:induction false} DigitsValueBound(s: string)
    requires forall i :: 0 <= i < |s| ==> IsHexDigit(s[i])
    ensures DigitsValue(s, 16) < Pow16(|s|)
  {
    if s != [] {
      DigitsValueBound(s[..|s| - 1]);
    }
  }

  lemma ShiftArith(va: int, vi: int, d: int, p: int)
    ensures (va * p + vi) * 16 + d == va * (16 * p) + (vi * 16 + d)
  {
  }

  /** The value of a concatenation: the left part shifted past the right part. */
  lemma {:induction false} DigitsValueConcat(a: string, b: string)
    ensures DigitsValue(a + b, 16) == DigitsValue(a, 16) * Pow16(|b|) + DigitsValue(b, 16)
    decreases |b|
  {
    if b != [] {
      var init := b[..|b| - 1];
      assert (a + b)[..|a + b| - 1] == a + init;
      assert (a + b)[|a + b| - 1] == b[|b| - 1];
      DigitsValueConcat(a, init);
      var va, vi, d, p := DigitsValue(a, 16), DigitsValue(init, 16), DigitValue(b[|b| - 1]), Pow16(|init|);
      assert DigitsValue(a + b, 16) == (va * p + vi) * 16 + d;
      assert DigitsValue(b, 16) == vi * 16 + d;
      assert Pow16(|b|) == 16 * p;
      ShiftArith(va, vi, d, p);
    } else {
      assert a + b == a;
    }
  }

  /** `parseInt(hex.replace('#', ''), 16)` on a `#rrggbb` colour. */
  function ColorValue(hex: string): (num: nat)
    requires IsHexColor(hex)
    ensures num < Pow16(6)
  {
    DigitsValueBound(hex[1..]);
    DigitsValue(hex[1..], 16)
  }

  /** `num >> 16`, `num >> 8 & 0x00FF` and `num & 0x0000FF` on a 24-bit number. */
  function Red(num: nat): nat { num / 65536 }
  function Green(num: nat): nat { (num / 256) % 256 }
  function Blue(num: nat): nat { num % 256 }

  /** `Math.min(255, Math.max(0, x))` */
  function Clamp(x: int): (c: nat)
    ensures c <= 255
    ensures 0 <= x <= 255 ==> c == x
    ensures x < 0 ==> c == 0
    ensures x > 255 ==> c == 255
  {
    if x < 0 then 0 else if x > 255 then 255 else x
  }

  /** The value of the two hex digits of channel `i` (0 red, 1 green, 2 blue). */
  function Channel(hex: string, i: nat): nat
    requires |hex| == 7 && i < 3
  {
    DigitsValue(hex[1 + 2 * i..3 + 2 * i], 16)
  }

  /** Three channels packed into 24 bits unpack to themselves. */
  lemma Unpack(r: nat, g: nat, b: nat)
    requires r < 256 && g < 256 && b < 256
    ensures var num := r * 65536 + g * 256 + b;
      Red(num) == r && Green(num) == g && Blue(num) == b
  {
    var num := r * 65536 + g * 256 + b;
    assert num == 256 * (r * 256 + g) + b;
    assert num / 256 == r * 256 + g;
    assert num == 65536 * r + (g * 256 + b);
  }

  /** The shifts in the source read exactly the two-digit pairs of the colour. */
  lemma ShiftsReadPairs(hex: string)
    requires IsHexColor(hex)
    ensures Red(ColorValue(hex)) == Channel(hex, 0)
    ensures Green(ColorValue(hex)) == Channel(hex, 1)
    ensures Blue(ColorValue(hex)) == Channel(hex, 2)
  {
    var rs, gs, bs := hex[1..3], hex[3..5], hex[5..7];
    assert hex[1..] == rs + gs + bs;
    DigitsValueBound(rs);
    DigitsValueBound(gs);
    DigitsValueBound(bs);
    DigitsValueConcat(rs + gs, bs);
    DigitsValueConcat(rs, gs);
    var r, g, b := DigitsValue(rs, 16), DigitsValue(gs, 16), DigitsValue(bs, 16);
    assert ColorValue(hex) == r * 65536 + g * 256 + b;
    Unpack(r, g, b);
  }

  /**
   * `'#' + ((1 << 24) + (R << 16) + (G << 8) + B).toString(16).slice(1)`: the
   * leading `1` keeps the printed number seven digits long, and dropping it
   * leaves each channel as two digits.
   */
  function ToHexColor(r: nat, g: nat, b: nat): (s: string)
    requires r < 256 && g < 256 && b < 256
    ensures s == "#" + HexWidth(r, 2) + HexWidth(g, 2) + HexWidth(b, 2)
  {
    var low := r * 65536 + g * 256 + b;
    var printed := HexString(Pow16(6) + low);
    PrintedColor(r, g, b, low);
    SliceOne(HexWidth(r, 2), HexWidth(g, 2), HexWidth(b, 2));
    "#" + printed[1..]
  }

  /** `slice(1)` of the printed colour, with the `#` put in front. */
  lemma SliceOne(rs: string, gs: string, bs: string)
    ensures "#" + ("1" + (rs + gs + bs))[1..] == "#" + rs + gs + bs
  {
    assert ("1" + (rs + gs + bs))[1..] == rs + gs + bs;
  }

  lemma Pow16Values()
    ensures Pow16(2) == 256 && Pow16(4) == 65536 && Pow16(6) == 16777216
  {
    assert Pow16(1) == 16;
    assert Pow16(3) == 4096;
    assert Pow16(5) == 1048576;
  }

  lemma PackArith(r: nat, g: nat, b: nat)
    requires r < 256 && g < 256 && b < 256
    ensures (r * 256 + g) * 256 + b == r * 65536 + g * 256 + b
    ensures r * 65536 + g * 256 + b < 16777216
  {
  }

  /** Three channels, packed as the source packs them into `low`, fill six digits, two each. */
  lemma PackedWidth(r: nat, g: nat, b: nat, low: nat)
    requires r < 256 && g < 256 && b < 256 && low == r * 65536 + g * 256 + b
    ensures low < Pow16(6)
    ensures HexWidth(low, 6) == HexWidth(r, 2) + HexWidth(g, 2) + HexWidth(b, 2)
  {
    Pow16Values();
    PackArith(r, g, b);
    var rg := r * 256 + g;
    WidthSplit(r, g, 2, 2, rg);
    WidthSplit(rg, b, 4, 2, low);
  }

  /** `HexWidthConcat` with the packed number named, so no product is left to the solver. */
  lemma WidthSplit(a: nat, b: nat, k: nat, m: nat, n: nat)
    requires b < Pow16(m) && n == a * Pow16(m) + b
    ensures HexWidth(n, k + m) == HexWidth(a, k) + HexWidth(b, m)
  {
    HexWidthConcat(a, b, k, m);
  }

  /** A number below `16^6` printed after a leading `1`. */
  lemma PrintedPacked(low: nat, w: string)
    requires low < Pow16(6) && HexWidth(low, 6) == w
    ensures HexString(Pow16(6) + low) == "1" + w
  {
    HexStringShift(1, low, 6);
    assert HexString(1) == "1";
  }

  /**
   * `(1 << 24) + (R << 16) + (G << 8) + B`, printed in hex, is a `1` followed
   * by the three channels in two digits each.
   */
  lemma PrintedColor(r: nat, g: nat, b: nat, low: nat)
    requires r < 256 && g < 256 && b < 256 && low == r * 65536 + g * 256 + b
    ensures HexString(Pow16(6) + low) == "1" + (HexWidth(r, 2) + HexWidth(g, 2) + HexWidth(b, 2))
  {
    PackedWidth(r, g, b, low);
    PrintedPacked(low, HexWidth(r, 2) + HexWidth(g, 2) + HexWidth(b, 2));
  }

  /** Every channel of a colour is below 256. */
  lemma ChannelBound(hex: string, i: nat)
    requires IsHexColor(hex) && i < 3
    ensures Channel(hex, i) < 256
  {
    var pair := hex[1 + 2 * i..3 + 2 * i];
    assert forall j :: 0 <= j < |pair| ==> pair[j] == hex[1 + 2 * i + j];
    DigitsValueBound(pair);
    Pow16Values();
  }

  /** The printed colour is lower-case and its pairs read back as the three channels. */
  lemma ChannelsOfHexColor(r: nat, g: nat, b: nat)
    requires r < 256 && g < 256 && b < 256
    ensures IsLowerHexColor(ToHexColor(r, g, b))
    ensures Channel(ToHexColor(r, g, b), 0) == r
    ensures Channel(ToHexColor(r, g, b), 1) == g
    ensures Channel(ToHexColor(r, g, b), 2) == b
  {
    var s := ToHexColor(r, g, b);
    assert s[1..3] == HexWidth(r, 2);
    assert s[3..5] == HexWidth(g, 2);
    assert s[5..7] == HexWidth(b, 2);
    Pow16Values();
    DigitsValueOfHexWidth(r, 2);
    DigitsValueOfHexWidth(g, 2);
    DigitsValueOfHexWidth(b, 2);
  }

  lemma SamePair(s: string, t: string, i: nat)
    requires IsLowerHexColor(s) && IsLowerHexColor(t) && i < 3
    requires Channel(s, i) == Channel(t, i)
    ensures s[1 + 2 * i..3 + 2 * i] == t[1 + 2 * i..3 + 2 * i]
  {
    var sp, tp := s[1 + 2 * i..3 + 2 * i], t[1 + 2 * i..3 + 2 * i];
    assert forall j :: 0 <= j < 2 ==> sp[j] == s[1 + 2 * i + j] && tp[j] == t[1 + 2 * i + j];
    HexWidthOfDigitsValue(sp);
    HexWidthOfDigitsValue(tp);
  }

  /** A lower-case colour is determined by its three channels. */
  lemma ChannelsDetermineColor(s: string, t: string)
    requires IsLowerHexColor(s) && IsLowerHexColor(t)
    requires forall i :: 0 <= i < 3 ==> Channel(s, i) == Channel(t, i)
    ensures s == t
  {
    SamePair(s, t, 0);
    SamePair(s, t, 1);
    SamePair(s, t, 2);
    assert s == s[..1] + s[1..3] + s[3..5] + s[5..7];
    assert t == t[..1] + t[1..3] + t[3..5] + t[5..7];
  }

  /**
   * `adjustColorBrightness(hex, percent)` with `amt = Math.round(2.55 * percent)`
   * given directly: every channel of the result is the input channel plus
   * `amt`, clamped to 0..255, and the result is a lower-case `#rrggbb`.
   */
  function AdjustColorBrightness(hex: string, amt: int): (r: string)
    requires IsHexColor(hex)
    ensures IsLowerHexColor(r)
    ensures Channel(r, 0) == Clamp(Channel(hex, 0) + amt)
    ensures Channel(r, 1) == Clamp(Channel(hex, 1) + amt)
    ensures Channel(r, 2) == Clamp(Channel(hex, 2) + amt)
  {
    var num := ColorValue(hex);
    var red := Clamp(Red(num) + amt);
    var green := Clamp(Green(num) + amt);
    var blue := Clamp(Blue(num) + amt);
    ShiftsReadPairs(hex);
    ChannelsOfHexColor(red, green, blue);
    ToHexColor(red, green, blue)
  }

  /** A shift of zero gives a lower-case colour back unchanged. */
  lemma AdjustByZero(hex: string)
    requires IsLowerHexColor(hex)
    ensures IsHexColor(hex)
    ensures AdjustColorBrightness(hex, 0) == hex
  {
    forall i | 1 <= i < 7 ensures IsHexDigit(hex[i]) {
      HexDigitOfValue(hex[i]);
    }
    var out := AdjustColorBrightness(hex, 0);
    forall i | 0 <= i < 3 ensures Channel(out, i) == Channel(hex, i) {
      ChannelBound(hex, i);
      AdjustedChannel(hex, 0, i);
    }
    ChannelsDetermineColor(out, hex);
  }

  /** Channel `i` of an adjusted colour, by index rather than by name. */
  lemma AdjustedChannel(hex: string, amt: int, i: nat)
    requires IsHexColor(hex) && i < 3
    ensures Channel(AdjustColorBrightness(hex, amt), i) == Clamp(Channel(hex, i) + amt)
  {
    var r := AdjustColorBrightness(hex, amt);
    if i == 0 {
      assert Channel(r, 0) == Clamp(Channel(hex, 0) + amt);
    } else if i == 1 {
      assert Channel(r, 1) == Clamp(Channel(hex, 1) + amt);
    } else {
      assert Channel(r, 2) == Clamp(Channel(hex, 2) + amt);
    }
  }

  /** A larger adjustment never gives a smaller channel. */
  lemma AdjustIsMonotone(hex: string, lo: int, hi: int, i: nat)
    requires IsHexColor(hex) && lo <= hi && i < 3
    ensures Channel(AdjustColorBrightness(hex, lo), i) <= Channel(AdjustColorBrightness(hex, hi), i)
  {
    AdjustedChannel(hex, lo, i);
    AdjustedChannel(hex, hi, i);
    ClampMonotone(Channel(hex, i) + lo, Channel(hex, i) + hi);
  }

  lemma ClampMonotone(x: int, y: int)
    requires x <= y
    ensures Clamp(x) <= Clamp(y)
  {
  }
}
