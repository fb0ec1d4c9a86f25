/** The `formatFileSize` helper that the image card and the PDF card each
    define, identically: a byte count held as a string is shown in B, KB or
    MB. */
module FileSize {
  import opened BoardTypes
  import opened Numbers

  const KiB := 1024
  const MiB := 1024 * 1024

  /** formatFileSize(size): "" for "", the input itself when parseInt finds
      no number, otherwise the parsed byte count shown with its unit. */
  function FormatFileSize(size: string): string
  {
    if size == "" then ""
    else match ParseInt(size)
      case None => size
      case Some(bytes) => FormatBytes(bytes)
  }

  /** The rounded value of a byte count with the unit its size selects. */
  function FormatBytes(bytes: int): string
  {
    if bytes < KiB then IntToString(bytes) + " B"
    else if bytes < MiB then IntToString(JsRound(bytes as real / KiB as real)) + " KB"
    else IntToString(JsRound(bytes as real / MiB as real)) + " MB"
  }

  /** The text s shows the byte count b as k of the unit b's size selects:
      k is b itself below 1 KB, and otherwise b lies within half a unit
      of k units. */
  ghost predicate ShownAs(b: int, k: int, s: string) {
    && (b < KiB ==> k == b && s == IntToString(k) + " B")
    && (KiB <= b < MiB ==>
          && s == IntToString(k) + " KB" && 1 <= k <= 1024
          && k * KiB - KiB / 2 <= b < k * KiB + KiB / 2)
    && (MiB <= b ==>
          && s == IntToString(k) + " MB" && 1 <= k
          && k * MiB - MiB / 2 <= b < k * MiB + MiB / 2)
  }

  /** Every byte count is shown with the unit its size selects and a
      number within half a unit of it. */
  lemma FormatBytesShown(b: int)
    ensures exists k :: ShownAs(b, k, FormatBytes(b))
  {
    if b < KiB {
      assert ShownAs(b, b, FormatBytes(b));
    } else if b < MiB {
      KilobytesShown(b);
    } else {
      MegabytesShown(b);
    }
  }

  lemma KilobytesShown(b: int)
    requires KiB <= b < MiB
    ensures ShownAs(b, JsRound(b as real / KiB as real), FormatBytes(b))
  {
    RoundedQuotient(b, KiB, JsRound(b as real / KiB as real));
  }

  lemma MegabytesShown(b: int)
    requires MiB <= b
    ensures ShownAs(b, JsRound(b as real / MiB as real), FormatBytes(b))
  {
    RoundedQuotient(b, MiB, JsRound(b as real / MiB as real));
  }

  /** The three outcomes of formatFileSize, with the unit decided by the
      parsed byte count and the shown number within half a unit of it. */
  lemma FormatFileSizeCases(size: string)
    ensures size == "" ==> FormatFileSize(size) == ""
    ensures size != "" && ParseInt(size).None? ==> FormatFileSize(size) == size
    ensures size != "" && ParseInt(size).Some? ==>
              exists k :: ShownAs(ParseInt(size).value, k, FormatFileSize(size))
  {
    if size != "" && ParseInt(size).Some? {
      var b := ParseInt(size).value;
      FormatParsed(size, b);
      FormatBytesShown(b);
      var k :| ShownAs(b, k, FormatBytes(b));
      assert ShownAs(b, k, FormatFileSize(size));
    }
  }

  /** Rounding b/d to k puts b within half of d of k·d. */
  lemma RoundedQuotient(b: int, d: int, k: int)
    requires d > 0 && d % 2 == 0 && b >= d
    requires k == JsRound(b as real / d as real)
    ensures 1 <= k && k * d - d / 2 <= b < k * d + d / 2
  {
    var dr, br, kr := d as real, b as real, k as real;
    var q := br / dr;
    QuotientAtLeastOne(br, dr);
    assert kr - 0.5 <= q < kr + 0.5;
    assert q * dr == br;
    MulLe(kr - 0.5, q, dr);
    MulLt(q, kr + 0.5, dr);
    assert br < (kr + 0.5) * dr;
    assert (k * d + d / 2) as real == (kr + 0.5) * dr;
    assert br < (k * d + d / 2) as real;
    assert (k * d - d / 2) as real == (kr - 0.5) * dr;
  }

  lemma QuotientAtLeastOne(x: real, y: real)
    requires y > 0.0 && x >= y
    ensures x / y >= 1.0
  {
    var q := x / y;
    assert q * y == x;
    assert (q - 1.0) * y == x - y;
  }

  lemma MulLe(x: real, y: real, d: real)
    requires x <= y && d > 0.0
    ensures x * d <= y * d
  {
  }

  lemma MulLt(x: real, y: real, d: real)
    requires x < y && d > 0.0
    ensures x * d < y * d
  {
  }

  /** A string parseInt reads as n is shown as n with its unit. */
  lemma FormatParsed(s: string, n: int)
    requires ParseInt(s) == Some(n)
    ensures s != ""
    ensures FormatFileSize(s) == FormatBytes(n)
  {
  }

  /** An upload stores its size as `fileSize.toString()`; the card reads
      that string back to exactly the stored byte count before formatting. */
  lemma FormatStoredSize(n: nat)
    ensures FormatFileSize(IntToString(n)) == FormatBytes(n)
  {
    ParseIntToString(n);
    FormatParsed(IntToString(n), n);
  }
}
