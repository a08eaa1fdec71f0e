/**
 * The two HTTP range headers the stream loader speaks: the outbound
 * `Range: bytes=<first>-<last>` request header (RFC 7233 section 2.1) and
 * the total length taken from a `Content-Range` response header
 * (RFC 7233 section 4.2).
 */
module HttpRange {
  import opened Wrappers
  import opened Decimal
  import opened Strings

  /** `String.firstIndex(of:)`. */
  function FirstIndexOf(s: string, c: char): (r: Option<nat>)
    ensures r.Some? ==> r.value < |s| && s[r.value] == c
    ensures r.Some? ==> forall i :: 0 <= i < r.value ==> s[i] != c
    ensures r.None? ==> forall i :: 0 <= i < |s| ==> s[i] != c
    decreases |s|
  {
    if |s| == 0 then None
    else if s[0] == c then Some(0)
    else
      match FirstIndexOf(s[1..], c)
      case None => None
      case Some(i) => Some(i + 1)
  }

  lemma FirstIndexOfSeparator(a: string, c: char, b: string)
    requires forall i :: 0 <= i < |a| ==> a[i] != c
    ensures FirstIndexOf(a + [c] + b, c) == Some(|a|)
  {
    var s := a + [c] + b;
    assert s[|a|] == c;
    assert forall i :: 0 <= i < |a| ==> s[i] == a[i];
  }

  const CONTENT_RANGE_PREFIX := "bytes "
  const RANGE_PREFIX := "bytes="

  /**
   * `StreamResourceLoaderDelegate.parseContentRange`: the complete length
   * after the first `/` of a header that starts with `bytes `, read with
   * `Int64(_:)`; None on anything else.
   */
  function ParseContentRange(header: string): (total: Option<Int64>)
    ensures total.Some? ==> StartsWith(header, CONTENT_RANGE_PREFIX) && '/' in header
    ensures total.Some? ==>
              exists i :: 0 <= i < |header| && header[i] == '/' && '/' !in header[..i]
                          && ParseInt64(header[i + 1..]) == total
  {
    if !StartsWith(header, CONTENT_RANGE_PREFIX) then None
    else
      match FirstIndexOf(header, '/')
      case None => None
      case Some(i) =>
        assert '/' !in header[..i];
        ParseInt64(header[i + 1..])
  }

  /** The three forms of a `Content-Range` value (section 4.2 of RFC 7233). */
  datatype ContentRange =
    | Satisfied(first: nat, last: nat, completeLength: nat)   // bytes 0-99/200
    | Unsatisfied(completeLength: nat)                        // bytes */500
    | UnknownLength(first: nat, last: nat)                    // bytes 0-99/*

  function FormatContentRange(c: ContentRange): string {
    match c
    case Satisfied(first, last, total) =>
      CONTENT_RANGE_PREFIX + Show(first) + "-" + Show(last) + "/" + Show(total)
    case Unsatisfied(total) => CONTENT_RANGE_PREFIX + "*" + "/" + Show(total)
    case UnknownLength(first, last) => CONTENT_RANGE_PREFIX + Show(first) + "-" + Show(last) + "/" + "*"
  }

  lemma NoSlashInShow(n: nat)
    ensures forall i :: 0 <= i < |Show(n)| ==> Show(n)[i] != '/' && Show(n)[i] != '-'
  {
    assert Show(n) == DecimalDigits(n);
  }

  /** Only the text after the first `/` decides the result. */
  lemma ParseContentRangeSplit(head: string, tail: string)
    requires StartsWith(head, CONTENT_RANGE_PREFIX)
    requires forall i :: 0 <= i < |head| ==> head[i] != '/'
    ensures ParseContentRange(head + "/" + tail) == ParseInt64(tail)
  {
    var h := head + ['/'] + tail;
    assert h[..|CONTENT_RANGE_PREFIX|] == head[..|CONTENT_RANGE_PREFIX|];
    FirstIndexOfSeparator(head, '/', tail);
    assert h[|head| + 1..] == tail;
  }

  /**
   * The parser recovers the complete length of every well-formed header
   * that carries one, and gives None for the unknown-length form.
   */
  lemma ParseFormattedContentRange(c: ContentRange)
    requires !c.UnknownLength? ==> InInt64(c.completeLength)
    ensures ParseContentRange(FormatContentRange(c)) ==
            if c.UnknownLength? then None else Some(c.completeLength)
  {
    var head, tail;
    match c {
      case Satisfied(first, last, total) =>
        head, tail := CONTENT_RANGE_PREFIX + Show(first) + "-" + Show(last), Show(total);
        NoSlashInShow(first);
        NoSlashInShow(last);
        ParseShow(total);
      case Unsatisfied(total) =>
        head, tail := CONTENT_RANGE_PREFIX + "*", Show(total);
        ParseShow(total);
      case UnknownLength(first, last) =>
        head, tail := CONTENT_RANGE_PREFIX + Show(first) + "-" + Show(last), "*";
        NoSlashInShow(first);
        NoSlashInShow(last);
    }
    assert FormatContentRange(c) == head + "/" + tail;
    assert head[..|CONTENT_RANGE_PREFIX|] == CONTENT_RANGE_PREFIX;
    ParseContentRangeSplit(head, tail);
  }

  lemma ContentRangeExampleSatisfied()
    ensures ParseContentRange("bytes 0-99/200") == Some(200)
  {
    assert ParseDigits("200") == Some(200) by {
      assert "200"[..2] == "20" && "20"[..1] == "2";
    }
    assert "bytes 0-99/200" == "bytes 0-99" + "/" + "200";
    ParseContentRangeSplit("bytes 0-99", "200");
  }

  lemma ContentRangeExampleUnsatisfied()
    ensures ParseContentRange("bytes */500") == Some(500)
  {
    assert ParseDigits("500") == Some(500) by {
      assert "500"[..2] == "50" && "50"[..1] == "5";
    }
    assert "bytes */500" == "bytes *" + "/" + "500";
    ParseContentRangeSplit("bytes *", "500");
  }

  lemma ContentRangeExamplesRefused()
    ensures ParseContentRange("bytes 0-99/*") == None
    ensures ParseContentRange("bytes 0-1") == None
    ensures ParseContentRange("not-bytes 0-1/2") == None
  {
    assert "bytes 0-99/*" == "bytes 0-99" + "/" + "*";
    ParseContentRangeSplit("bytes 0-99", "*");
    var h := "bytes 0-1";
    assert forall i :: 0 <= i < |h| ==> h[i] != '/';
    var bad := "not-bytes 0-1/2";
    assert bad[..6] != CONTENT_RANGE_PREFIX by { assert bad[0] != 'b'; }
  }

  /**
   * Any run of digits after the `/` is read as the complete length, so a
   * `1*DIGIT` total with leading zeros (`bytes 0-99/0200`) gives its value.
   */
  lemma ParseContentRangeDigitTotal(head: string, digits: string)
    requires StartsWith(head, CONTENT_RANGE_PREFIX)
    requires forall i :: 0 <= i < |head| ==> head[i] != '/'
    requires |digits| > 0 && AllDigits(digits)
    requires ParseDigits(digits).value <= INT64_MAX
    ensures ParseContentRange(head + "/" + digits) == Some(ParseDigits(digits).value)
  {
    ParseContentRangeSplit(head, digits);
    ParseUnsignedDigits(digits);
  }

  /** The unit is matched exactly: `Bytes` or `BYTES` is refused. */
  lemma ContentRangeUnitIsCaseSensitive()
    ensures ParseContentRange("Bytes 0-99/200") == None
  {
    var h := "Bytes 0-99/200";
    assert h[..6] != CONTENT_RANGE_PREFIX by { assert h[0] != 'b'; }
  }

  /**
   * `Int64(_:)` takes a sign, so a signed total that section 4.2 of
   * RFC 7233 does not allow is passed on as a length.
   */
  lemma ContentRangeAcceptsSignedTotal()
    ensures ParseContentRange("bytes 0-1/-5") == Some(-5)
  {
    assert "-5"[1..] == "5";
    assert ParseDigits("5") == Some(5);
    assert "bytes 0-1/-5" == "bytes 0-1" + "/" + "-5";
    ParseContentRangeSplit("bytes 0-1", "-5");
  }

  /**
   * Swift's `Int(lower) + requestedLength - 1`, evaluated left to right:
   * None where either step overflows 64 bits and the process traps.
   */
  function LastByteIndex(offset: Int64, length: Int64): (r: Option<Int64>)
    ensures r.Some? ==> r.value == offset + length - 1
    ensures r.None? <==> offset + length > INT64_MAX || offset + length - 1 < INT64_MIN
  {
    var sum := offset + length;
    if !InInt64(sum) then None
    else if !InInt64(sum - 1) then None
    else Some(sum - 1)
  }

  /** The value of the outbound `Range` header, `bytes=<lower>-<upper>`. */
  function RangeHeaderValue(lower: int, upper: int): (h: string)
    ensures StartsWith(h, RANGE_PREFIX)
    ensures h[|RANGE_PREFIX|..] == Show(lower) + "-" + Show(upper)
  {
    RANGE_PREFIX + Show(lower) + "-" + Show(upper)
  }

  /** Reads back a `bytes=<first>-<last>` value whose first position is unsigned. */
  function ParseRangeHeader(h: string): (r: Option<(Int64, Int64)>)
  {
    if !StartsWith(h, RANGE_PREFIX) then None
    else
      var spec := h[|RANGE_PREFIX|..];
      match FirstIndexOf(spec, '-')
      case None => None
      case Some(i) =>
        match (ParseInt64(spec[..i]), ParseInt64(spec[i + 1..]))
        case (Some(first), Some(last)) => Some((first, last))
        case _ => None
  }

  lemma ParseRangeHeaderSplit(x: string, y: string)
    requires forall i :: 0 <= i < |x| ==> x[i] != '-'
    ensures ParseRangeHeader(RANGE_PREFIX + x + "-" + y) ==
            match (ParseInt64(x), ParseInt64(y))
            case (Some(first), Some(last)) => Some((first, last))
            case _ => None
  {
    var h := RANGE_PREFIX + x + "-" + y;
    var spec := x + ['-'] + y;
    assert h == RANGE_PREFIX + spec;
    assert h[..|RANGE_PREFIX|] == RANGE_PREFIX;
    assert h[|RANGE_PREFIX|..] == spec;
    FirstIndexOfSeparator(x, '-', y);
    assert spec[..|x|] == x;
    assert spec[|x| + 1..] == y;
  }

  /** The header the loader sends is read back as the two positions it was built from. */
  lemma ParseRangeHeaderValue(lower: Int64, upper: Int64)
    requires lower >= 0
    ensures ParseRangeHeader(RangeHeaderValue(lower, upper)) == Some((lower, upper))
  {
    NoSlashInShow(lower);
    ParseRangeHeaderSplit(Show(lower), Show(upper));
    ParseShow(lower);
    ParseShow(upper);
  }

  /**
   * A byte-range-spec that section 2.1 of RFC 7233 accepts: an unsigned
   * first position and a last position no smaller than it.
   */
  predicate ValidByteRange(h: string) {
    var r := ParseRangeHeader(h);
    r.Some? && 0 <= r.value.0 <= r.value.1
  }

  /**
   * For a non-empty request the header names exactly the requested bytes:
   * it starts at the offset and spans `length` bytes. For a zero-length
   * request the last position falls before the first, which section 2.1
   * of RFC 7233 calls invalid; the loader sends it anyway.
   */
  lemma RangeHeaderCoversRequest(offset: Int64, length: Int64)
    requires offset >= 0
    requires LastByteIndex(offset, length).Some?
    ensures var h := RangeHeaderValue(offset, LastByteIndex(offset, length).value);
            var r := ParseRangeHeader(h);
            && r.Some? && r.value.0 == offset && r.value.1 - r.value.0 + 1 == length
            && (ValidByteRange(h) <==> length >= 1)
  {
    ParseRangeHeaderValue(offset, LastByteIndex(offset, length).value);
  }
}
