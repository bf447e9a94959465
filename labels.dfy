/** Product labels: the barcode value printed as EAN-13 (ISO/IEC 15420), whose 12 data
    digits are taken from the product's barcode; the check digit is left to the renderer. */
module Labels {
  import opened Wrappers
  import opened Records
  import Text
  import Lists

  /** `s.replace(/\D/g, '')`: the decimal digits of `s`, in order. */
  function Digits(s: string): string
  {
    Lists.Filter(s, (c: char) => Text.IsDigit(c))
  }

  /** `(barcode || '').replace(/\D/g, '').slice(0, 12)`. */
  function BarcodeValue(barcode: Option<string>): (r: string)
    ensures |r| <= 12
    ensures forall i :: 0 <= i < |r| ==> Text.IsDigit(r[i])
  {
    var ds := Digits(SourceText(barcode));
    assert forall i :: 0 <= i < |ds| ==> ds[i] in ds;
    if |ds| <= 12 then ds else ds[..12]
  }

  /** `barcodeValue.length === 12`. */
  predicate IsValidForEan13(barcode: Option<string>)
  {
    |BarcodeValue(barcode)| == 12
  }

  /** What a label shows. */
  datatype Label = Label(productId: int, name: string, barcodeValue: string, validForEan13: bool, price: real)

  /** `products.map(...)`: one label per product, in catalogue order. */
  function MakeLabels(products: seq<Product>): (r: seq<Label>)
    ensures |r| == |products|
    ensures forall i :: 0 <= i < |products| ==>
      r[i].productId == products[i].id && r[i].name == products[i].name && r[i].price == products[i].price
      && r[i].barcodeValue == BarcodeValue(products[i].barcode)
      && r[i].validForEan13 == IsValidForEan13(products[i].barcode)
  {
    seq(|products|, i requires 0 <= i < |products| =>
      Label(products[i].id, products[i].name, BarcodeValue(products[i].barcode),
            IsValidForEan13(products[i].barcode), products[i].price))
  }

  /** `product.barcode || ''`. */
  function SourceText(barcode: Option<string>): string
  {
    if barcode.Some? then barcode.value else ""
  }

  /** The value is the first min(12, k) digits of the barcode, k being its digit count;
      a missing barcode gives the empty value. */
  lemma BarcodeValueIsDigitPrefix(barcode: Option<string>)
    ensures var ds := Digits(SourceText(barcode));
      && |BarcodeValue(barcode)| == (if |ds| < 12 then |ds| else 12)
      && BarcodeValue(barcode) == ds[..|BarcodeValue(barcode)|]
    ensures Lists.IsSubsequence(Digits(SourceText(barcode)), SourceText(barcode))
    ensures barcode.None? ==> BarcodeValue(barcode) == ""
  {
    Lists.FilterIsSubsequence(SourceText(barcode), (c: char) => Text.IsDigit(c));
  }

  /** A barcode is usable for EAN-13 exactly when it has at least 12 digits. */
  lemma ValidIffTwelveDigits(barcode: Option<string>)
    ensures IsValidForEan13(barcode) <==> |Digits(SourceText(barcode))| >= 12
  {
  }

  /** A string of digits is its own digit string. */
  lemma DigitsOfDigits(s: string)
    requires forall i :: 0 <= i < |s| ==> Text.IsDigit(s[i])
    ensures Digits(s) == s
  {
    Lists.FilterAllPass(s, (c: char) => Text.IsDigit(c));
  }

  /** Normalising a normalised value changes nothing. */
  lemma BarcodeValueIdempotent(barcode: Option<string>)
    ensures BarcodeValue(Some(BarcodeValue(barcode))) == BarcodeValue(barcode)
  {
    DigitsOfDigits(BarcodeValue(barcode));
  }
}
