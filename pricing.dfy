/**
 * The derived values of the form: the text an item's price and discount put
 * into the inputs, the normalisation of the price text, and the total rule.
 */
module Pricing {
  import opened Wrappers
  import opened Records
  import opened JsNumber

  /** A character the price normalisation keeps: a digit or a comma. */
  predicate IsPriceChar(c: char) {
    IsDigit(c) || c == ','
  }

  /**
   * `s.replace(/[^0-9,]+/g, "")`: every character other than a digit or a
   * comma is removed (removing maximal runs of them, as the pattern does,
   * removes each of them).
   */
  function StripPrice(s: string): (r: string)
    ensures |r| <= |s|
    ensures forall i :: 0 <= i < |r| ==> IsPriceChar(r[i])
  {
    if s == [] then []
    else (if IsPriceChar(s[0]) then [s[0]] else []) + StripPrice(s[1..])
  }

  /** `s.replace(",", ".")`: a string pattern, so only the first comma becomes a `.`. */
  function ReplaceFirstComma(s: string): (r: string)
    ensures |r| == |s|
  {
    if s == [] then []
    else if s[0] == ',' then "." + s[1..]
    else [s[0]] + ReplaceFirstComma(s[1..])
  }

  /** The text handed to `parseFloat` for the price. */
  function NormalisedPrice(harga: string): string {
    ReplaceFirstComma(StripPrice(harga))
  }

  /** `parseFloat(s) || 0`: the number `s` starts with, a failed parse counting as 0. */
  function NumberOrZero(s: string): real {
    OrZero(ParseFloat(s))
  }

  /** `numericHarga`: the parsed normalised price. */
  function PriceValue(harga: string): real {
    NumberOrZero(NormalisedPrice(harga))
  }

  /** `numericDiscount`: the parsed discount text. */
  function DiscountValue(discount: string): real {
    NumberOrZero(discount)
  }

  /**
   * The total shown by the form: empty, or the localised rupiah rendering
   * (by `Intl.NumberFormat`, not modelled) of `amount`.
   */
  datatype Total = Blank | Rupiah(amount: real)

  /** The total rule on parsed values: a positive price less the discount percentage, else blank. */
  function Discounted(price: real, discount: real): Total {
    if price > 0.0 then Rupiah(price * (1.0 - discount / 100.0)) else Blank
  }

  /** The total the form derives from its price and discount texts. */
  function TotalOf(harga: string, discount: string): Total {
    Discounted(PriceValue(harga), DiscountValue(discount))
  }

  /** `value ? String(value) : ''` for an item's `harga` or `diskon`. */
  function ItemText(v: Scalar): (r: string)
    ensures r == "" <==> v.IsFalsy()
  {
    match v
    case Null => ""
    case Num(n) => if n == 0 then "" else IntToString(n)
    case Str(s) => s
  }

  // ---------------------------------------------------------------------
  // Stripping

  /** Stripping works character by character. */
  lemma {:induction false} StripPriceConcat(a: string, b: string)
    ensures StripPrice(a + b) == StripPrice(a) + StripPrice(b)
  {
    if a == [] {
      assert a + b == b;
    } else {
      assert (a + b)[1..] == a[1..] + b;
      StripPriceConcat(a[1..], b);
    }
  }

  /** Text made only of digits and commas is left as it is. */
  lemma {:induction false} StripPriceKeeps(s: string)
    requires forall i :: 0 <= i < |s| ==> IsPriceChar(s[i])
    ensures StripPrice(s) == s
  {
    if s != [] {
      StripPriceKeeps(s[1..]);
    }
  }

  /** Stripping twice is stripping once. */
  lemma StripPriceIdempotent(s: string)
    ensures StripPrice(StripPrice(s)) == StripPrice(s)
  {
    StripPriceKeeps(StripPrice(s));
  }

  /** Every digit and comma survives with its multiplicity; nothing else does. */
  lemma {:induction false} StripPriceCounts(s: string, c: char)
    ensures multiset(StripPrice(s))[c] == if IsPriceChar(c) then multiset(s)[c] else 0
  {
    if s != [] {
      StripPriceCounts(s[1..], c);
      assert s == [s[0]] + s[1..];
      assert multiset(s) == multiset([s[0]]) + multiset(s[1..]);
    }
  }

  // ---------------------------------------------------------------------
  // Replacing the first comma

  /** Text without a comma is left as it is. */
  lemma {:induction false} ReplaceFirstCommaNone(s: string)
    requires forall i :: 0 <= i < |s| ==> s[i] != ','
    ensures ReplaceFirstComma(s) == s
  {
    if s != [] {
      ReplaceFirstCommaNone(s[1..]);
    }
  }

  predicate IsComma(c: char) {
    c == ','
  }

  /** The first comma, at `i`, becomes `.`; every other character is kept. */
  lemma {:induction false} ReplaceFirstCommaAt(s: string, i: nat)
    requires i < |s| && s[i] == ','
    requires forall j :: 0 <= j < i ==> s[j] != ','
    ensures ReplaceFirstComma(s) == s[i := '.']
  {
    if i > 0 {
      ReplaceFirstCommaAt(s[1..], i - 1);
      assert s[i := '.'] == [s[0]] + s[1..][i - 1 := '.'];
    }
  }

  /**
   * The normalised price is made of digits, commas and `.`, and a `.` in it
   * has only digits before it (so there is at most one, before every comma).
   */
  lemma NormalisedPriceShape(harga: string)
    ensures var t := NormalisedPrice(harga);
            (forall i :: 0 <= i < |t| ==> IsDigit(t[i]) || t[i] == ',' || t[i] == '.')
            && (forall j :: 0 <= j < |t| && t[j] == '.' ==> AllDigits(t[..j]))
  {
    var s := StripPrice(harga);
    var t := NormalisedPrice(harga);
    match FirstIndex(s, IsComma)
    case Some(i) => ReplaceFirstCommaAt(s, i);
    case None => ReplaceFirstCommaNone(s);
  }

  // ---------------------------------------------------------------------
  // The parsed price

  /**
   * An independent reading of a stripped price: the first comma is the
   * decimal separator, the digits after it up to the next comma are the
   * fraction, and everything from that next comma on is ignored.
   */
  function ReferencePrice(s: string): real
    requires forall i :: 0 <= i < |s| ==> IsPriceChar(s[i])
  {
    match FirstIndex(s, IsComma)
    case None =>
      assert AllDigits(s) by {
        forall k | 0 <= k < |s| ensures IsDigit(s[k]) { assert IsPriceChar(s[k]); assert !IsComma(s[k]); }
      }
      DigitsValue(s) as real
    case Some(i) =>
      assert AllDigits(s[..i]) by {
        forall k | 0 <= k < i ensures IsDigit(s[..i][k]) { assert IsPriceChar(s[k]); assert !IsComma(s[k]); }
      }
      var after := s[i + 1..];
      var b := after[..DigitRun(after)];
      AllDigitsConcat(s[..i], b);
      Shift(DigitsValue(s[..i] + b) as real, -|b|)
  }

  /** The parsed price is never negative: stripping removes every sign. */
  lemma PriceNonNegative(harga: string)
    ensures PriceValue(harga) >= 0.0
  {
    var t := NormalisedPrice(harga);
    assert t == [] || (!IsJsWhiteSpace(t[0]) && t[0] != '+' && t[0] != '-') by {
      NormalisedPriceShape(harga);
    }
    ParseFloatUnsignedNonNegative(t);
  }

  /** A stripped price without a comma is read as a whole number (the empty one as 0). */
  lemma PriceWithoutComma(harga: string)
    requires AllDigits(StripPrice(harga))
    ensures PriceValue(harga) == DigitsValue(StripPrice(harga)) as real
  {
    var s := StripPrice(harga);
    assert NormalisedPrice(harga) == s by { ReplaceFirstCommaNone(s); }
    if s == [] {
      ParseFloatNothing(s);
    } else {
      assert ParseFloat(s) == Some(DigitsValue(s) as real) by {
        assert s + "" == s;
        ParseFloatInteger(s, "");
      }
    }
  }

  /** The first comma of the stripped price is the one that becomes `.`. */
  lemma NormalisedAtComma(harga: string, a: string, b: string, rest: string)
    requires StripPrice(harga) == a + "," + b + rest
    requires AllDigits(a)
    ensures NormalisedPrice(harga) == a + "." + b + rest
  {
    var s := StripPrice(harga);
    assert s == a + ([','] + (b + rest));
    assert a + "." + b + rest == a + (['.'] + (b + rest));
    ReplaceFirstCommaAt(s, |a|);
    UpdateAfterPrefix(a, ',', '.', b + rest);
  }

  /**
   * A stripped price `a,b` followed by nothing or by a further comma is read
   * as `a.b`; a lone comma reads as 0.
   */
  lemma PriceWithComma(harga: string, a: string, b: string, rest: string)
    requires StripPrice(harga) == a + "," + b + rest
    requires AllDigits(a) && AllDigits(b)
    requires rest == [] || rest[0] == ','
    ensures AllDigits(a + b)
    ensures PriceValue(harga) == Shift(DigitsValue(a + b) as real, -|b|)
  {
    AllDigitsConcat(a, b);
    NormalisedAtComma(harga, a, b, rest);
    if a == [] && b == [] {
      assert ParseFloat("" + "." + "" + rest) == None by {
        assert "" + "." + "" + rest == "." + rest;
        ParseFloatLoneDot(rest);
      }
    } else {
      assert ParseFloat(a + "." + b + rest) == Some(Shift(DigitsValue(a + b) as real, -|b|)) by {
        ParseFloatDecimal(a, b, rest);
      }
    }
  }

  lemma UpdateAfterPrefix(a: string, c: char, d: char, w: string)
    ensures (a + ([c] + w))[|a| := d] == a + ([d] + w)
  {
    var s, t := a + ([c] + w), a + ([d] + w);
    forall k | 0 <= k < |s| ensures s[|a| := d][k] == t[k] {
      if k > |a| {
        assert s[k] == w[k - |a| - 1] == t[k];
      }
    }
  }

  /** Text cut at `i`, where it holds `c`, and again `k` characters after that. */
  lemma CutAround(s: string, i: nat, k: nat)
    requires i < |s| && i + 1 + k <= |s|
    ensures var after := s[i + 1..];
            s == s[..i] + [s[i]] + after[..k] + after[k..]
  {
    var after := s[i + 1..];
    assert s == s[..i] + s[i..];
    assert s[i..] == [s[i]] + after;
    assert after == after[..k] + after[k..];
    RegroupAround(s[..i], s[i], after[..k], after[k..]);
  }

  /**
   * A stripped price with its first comma at `i`, cut around that comma and
   * the `k` digits after it (`k` the digit run there).
   */
  lemma CommaSplit(s: string, i: nat, a: string, b: string, rest: string)
    requires forall j :: 0 <= j < |s| ==> IsPriceChar(s[j])
    requires FirstIndex(s, IsComma) == Some(i)
    requires a == s[..i]
    requires b == s[i + 1..][..DigitRun(s[i + 1..])] && rest == s[i + 1..][DigitRun(s[i + 1..])..]
    ensures s == a + "," + b + rest && AllDigits(a) && AllDigits(b)
    ensures rest == [] || rest[0] == ','
  {
    var after := s[i + 1..];
    var k := DigitRun(after);
    assert AllDigits(a) by {
      forall j | 0 <= j < i ensures IsDigit(a[j]) { assert IsPriceChar(s[j]) && !IsComma(s[j]); }
    }
    CutAround(s, i, k);
    if k < |after| {
      assert rest[0] == s[i + 1 + k] && IsPriceChar(s[i + 1 + k]);
    }
  }

  /** The reference reading of a stripped price whose first comma is at `i`. */
  lemma ReferenceAtComma(s: string, i: nat, a: string, b: string)
    requires forall j :: 0 <= j < |s| ==> IsPriceChar(s[j])
    requires FirstIndex(s, IsComma) == Some(i)
    requires a == s[..i] && b == s[i + 1..][..DigitRun(s[i + 1..])]
    requires AllDigits(a + b)
    ensures ReferencePrice(s) == Shift(DigitsValue(a + b) as real, -|b|)
  {
  }

  lemma ReferenceWithoutComma(harga: string)
    requires FirstIndex(StripPrice(harga), IsComma).None?
    ensures PriceValue(harga) == ReferencePrice(StripPrice(harga))
  {
    var s := StripPrice(harga);
    assert AllDigits(s) by {
      forall k | 0 <= k < |s| ensures IsDigit(s[k]) { assert IsPriceChar(s[k]) && !IsComma(s[k]); }
    }
    PriceWithoutComma(harga);
  }

  lemma ReferenceWithComma(harga: string, i: nat)
    requires FirstIndex(StripPrice(harga), IsComma) == Some(i)
    ensures PriceValue(harga) == ReferencePrice(StripPrice(harga))
  {
    var s := StripPrice(harga);
    var after := s[i + 1..];
    var k := DigitRun(after);
    var a, b, rest := s[..i], after[..k], after[k..];
    CommaSplit(s, i, a, b, rest);
    AllDigitsConcat(a, b);
    ReferenceAtComma(s, i, a, b);
    PriceWithComma(harga, a, b, rest);
  }

  /** The price the form parses is the reference reading of the stripped text, for every text. */
  lemma PriceValueIsReference(harga: string)
    ensures PriceValue(harga) == ReferencePrice(StripPrice(harga))
  {
    match FirstIndex(StripPrice(harga), IsComma)
    case None => ReferenceWithoutComma(harga);
    case Some(i) => ReferenceWithComma(harga, i);
  }

  // ---------------------------------------------------------------------
  // The total rule

  /** On parsed values: a non-negative price gives a blank total exactly when it is zero. */
  lemma DiscountedBlankIff(price: real, discount: real)
    requires price >= 0.0
    ensures Discounted(price, discount) == Blank <==> price == 0.0
  {
  }

  /** On parsed values: a discount between 0 and 100 percent keeps the total between 0 and the price. */
  lemma DiscountedWithinPrice(price: real, discount: real)
    requires 0.0 <= discount <= 100.0
    ensures Discounted(price, discount).Rupiah? ==> 0.0 <= Discounted(price, discount).amount <= price
  {
    if price > 0.0 {
      assert 0.0 <= price * (discount / 100.0) <= price;
    }
  }

  /** The total is blank exactly when the parsed price is zero (a failed parse included). */
  lemma TotalBlankIff(harga: string, discount: string)
    ensures TotalOf(harga, discount) == Blank <==> PriceValue(harga) == 0.0
  {
    PriceNonNegative(harga);
    DiscountedBlankIff(PriceValue(harga), DiscountValue(discount));
  }

  /** With a discount between 0 and 100 percent, the total lies between 0 and the price. */
  lemma TotalWithinPrice(harga: string, discount: string)
    requires 0.0 <= DiscountValue(discount) <= 100.0
    ensures TotalOf(harga, discount).Rupiah? ==>
              0.0 <= TotalOf(harga, discount).amount <= PriceValue(harga)
  {
    DiscountedWithinPrice(PriceValue(harga), DiscountValue(discount));
  }

  /** A discount that does not parse leaves the price undiscounted. */
  lemma UnparsedDiscountIsNoDiscount(harga: string, discount: string)
    requires ParseFloat(discount).None?
    ensures TotalOf(harga, discount) == Discounted(PriceValue(harga), 0.0)
  {
  }

  // ---------------------------------------------------------------------
  // Item values as form text

  /** An item's numeric price reads back as its magnitude: the sign of a negative price is stripped. */
  lemma ItemPriceValue(n: int)
    ensures PriceValue(ItemText(Num(n))) == if n < 0 then (-n) as real else n as real
  {
    var m: nat := if n < 0 then -n else n;
    var digits := NatToString(m);
    NatToStringValue(m);
    StripPriceKeeps(digits);
    if n < 0 {
      StripPriceConcat("-", digits);
      assert StripPrice("-") == [];
      assert StripPrice(ItemText(Num(n))) == digits;
    } else if n == 0 {
      assert ItemText(Num(n)) == [];
    }
    PriceWithoutComma(ItemText(Num(n)));
  }

  /** An item's numeric discount reads back as itself. */
  lemma ItemDiscountValue(n: int)
    ensures DiscountValue(ItemText(Num(n))) == n as real
  {
    if n == 0 {
      assert ItemText(Num(n)) == "";
      ParseFloatNothing("");
    } else {
      assert ItemText(Num(n)) == IntToString(n);
      assert ParseFloat(IntToString(n)) == Some(n as real) by { IntToStringRoundTrip(n); }
    }
  }

  /** The total an item with numeric price `h` and discount `d` produces. */
  lemma ItemTotal(h: int, d: int)
    ensures TotalOf(ItemText(Num(h)), ItemText(Num(d))) ==
            if h == 0 then Blank
            else Rupiah((if h < 0 then (-h) as real else h as real) * (1.0 - d as real / 100.0))
  {
    ItemPriceValue(h);
    ItemDiscountValue(d);
  }

  // ---------------------------------------------------------------------
  // Worked cases

  /** An item priced 100000 with a 10 percent discount totals 90000. */
  lemma TotalOfItemExample()
    ensures TotalOf(ItemText(Num(100000)), ItemText(Num(10))) == Rupiah(90000.0)
  {
    ItemTotal(100000, 10);
  }

  /** A `.` in the price is stripped like any other character: the digits on either side run together. */
  lemma PriceDotDropped(a: string, b: string)
    requires AllDigits(a) && AllDigits(b)
    ensures AllDigits(a + b) && PriceValue(a + "." + b) == DigitsValue(a + b) as real
  {
    var h := a + "." + b;
    assert StripPrice(h) == a + b by {
      assert h == (a + ".") + b;
      StripPriceConcat(a + ".", b);
      StripPriceConcat(a, ".");
      StripPriceKeeps(a);
      StripPriceKeeps(b);
      assert StripPrice(".") == [];
      assert a + [] == a;
    }
    AllDigitsConcat(a, b);
    PriceWithoutComma(h);
  }

  /** A `-` before the price is stripped: a negative price reads as its magnitude. */
  lemma PriceMinusDropped(h: string)
    ensures PriceValue("-" + h) == PriceValue(h)
  {
    assert StripPrice("-" + h) == StripPrice(h) by {
      StripPriceConcat("-", h);
      assert StripPrice("-") == [];
    }
  }
}
