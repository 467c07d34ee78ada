/**
 * The MNIST reader of mnist.hpp: a label file and an image file, each a
 * byte sequence with a big-endian header, are checked and the requested
 * range of examples kept.
 */
module Mnist {
  import opened Common

  newtype byte = b: int | 0 <= b < 256

  /** Why a pair of files is rejected; the source throws a runtime_error for each. */
  datatype LoadError =
    | ShortLabelHeader   // the label file ends inside the header field about to be read
    | BadLabelMagic      // mnist.hpp:47-50
    | BadLabelCount      // mnist.hpp:53-56
    | BadRange           // mnist.hpp:59-62
    | ShortLabels        // mnist.hpp:67-70
    | ShortImageHeader   // the image file ends inside the header field about to be read
    | BadImageMagic      // mnist.hpp:81-84
    | BadImageCount      // mnist.hpp:88-93
    | BadDimensions      // mnist.hpp:99-102
    | ShortImages        // mnist.hpp:107-110

  /** The loaded part of the two files (mnist.hpp:209-244). */
  datatype MNIST = MNIST(rows: nat, cols: nat, ct: nat, labels: seq<byte>, imgs: seq<byte>, maxLabel: byte)

  /** 256 to the power n. */
  function Pow256(n: nat): (p: nat)
    ensures p >= 1
  {
    if n == 0 then 1 else Pow256(n - 1) * 256
  }

  /** The number bs stands for with its most significant byte first. */
  function BigEndianValue(bs: seq<byte>): (v: nat)
    ensures v < Pow256(|bs|)
  {
    if |bs| == 0 then 0 else BigEndianValue(bs[..|bs| - 1]) * 256 + bs[|bs| - 1] as nat
  }

  /** A uint32 read and passed through htonl: the four bytes at i, most significant first. */
  function U32(s: seq<byte>, i: nat): (v: nat)
    requires i + 4 <= |s|
    ensures v < 0x1_0000_0000
  {
    assert Pow256(4) == 0x1_0000_0000;
    BigEndianValue(s[i..i + 4])
  }

  /** The n bytes of v, most significant first. */
  function BigEndian(v: nat, n: nat): (r: seq<byte>)
    ensures |r| == n
  {
    if n == 0 then [] else BigEndian(v / 256, n - 1) + [(v % 256) as byte]
  }

  /** Writing v in n bytes and reading it back gives v, when it fits. */
  lemma {:induction false} BigEndianRoundTrip(v: nat, n: nat)
    requires v < Pow256(n)
    ensures BigEndianValue(BigEndian(v, n)) == v
  {
    if n > 0 {
      var r := BigEndian(v, n);
      assert r[..n - 1] == BigEndian(v / 256, n - 1);
      BigEndianRoundTrip(v / 256, n - 1);
    }
  }

  /** Reading a value back and writing it again gives the same bytes. */
  lemma {:induction false} BigEndianOfValue(bs: seq<byte>)
    ensures BigEndian(BigEndianValue(bs), |bs|) == bs
  {
    if |bs| > 0 {
      var v := BigEndianValue(bs[..|bs| - 1]);
      var w := BigEndianValue(bs);
      assert w / 256 == v && w % 256 == bs[|bs| - 1] as nat;
      BigEndianOfValue(bs[..|bs| - 1]);
      assert bs == bs[..|bs| - 1] + [bs[|bs| - 1]];
    }
  }

  /** A header field written in four bytes reads back as itself, and the bytes of a field read are the bytes written. */
  lemma U32RoundTrip(v: nat, s: seq<byte>, i: nat)
    requires v < 0x1_0000_0000 && i + 4 <= |s|
    ensures U32(BigEndian(v, 4), 0) == v
    ensures BigEndian(U32(s, i), 4) == s[i..i + 4]
  {
    assert Pow256(4) == 0x1_0000_0000;
    BigEndianRoundTrip(v, 4);
    assert BigEndian(v, 4)[0..4] == BigEndian(v, 4);
    BigEndianOfValue(s[i..i + 4]);
  }

  /** rows*cols of an image file with a whole header. */
  function ImageSize(img: seq<byte>): nat
    requires |img| >= 16
  {
    U32(img, 8) * U32(img, 12)
  }

  /** len 0 means every example the label file declares (mnist.hpp:58). */
  function Wanted(count: nat, len: nat): nat
  {
    if len == 0 then count else len
  }

  /**
   * The first check the two files fail, in the order the constructor makes
   * them (mnist.hpp:44-110), or None when both are accepted.
   */
  function FirstFailure(lab: seq<byte>, img: seq<byte>, start: nat, len: nat): Option<LoadError>
  {
    if |lab| < 4 then Some(ShortLabelHeader)
    else if U32(lab, 0) != 2049 then Some(BadLabelMagic)
    else if |lab| < 8 then Some(ShortLabelHeader)
    else if U32(lab, 4) > 100000 then Some(BadLabelCount)
    else if start + Wanted(U32(lab, 4), len) > U32(lab, 4) then Some(BadRange)
    else if |lab| < 8 + start + Wanted(U32(lab, 4), len) then Some(ShortLabels)
    else if |img| < 4 then Some(ShortImageHeader)
    else if U32(img, 0) != 2051 then Some(BadImageMagic)
    else if |img| < 8 then Some(ShortImageHeader)
    else if U32(img, 4) != U32(lab, 4) then Some(BadImageCount)
    else if |img| < 16 then Some(ShortImageHeader)
    else if U32(img, 8) > 128 || U32(img, 12) > 128 then Some(BadDimensions)
    else if |img| < 16 + start * ImageSize(img) + Wanted(U32(lab, 4), len) * ImageSize(img) then Some(ShortImages)
    else None
  }

  /**
   * A header field is checked as soon as it is read, and a file is rejected
   * as short only at a field it does not hold: a bad label magic number is
   * reported whenever its four bytes are there, and a short image header
   * after eight bytes means both magic number and count were good.
   */
  lemma {:induction false} FieldsCheckedInOrder(lab: seq<byte>, img: seq<byte>, start: nat, len: nat)
    ensures FirstFailure(lab, img, start, len) == Some(ShortLabelHeader) ==> |lab| < 8
    ensures FirstFailure(lab, img, start, len) == Some(ShortImageHeader) ==> |img| < 16
    ensures |lab| >= 4 && U32(lab, 0) != 2049 ==> FirstFailure(lab, img, start, len) == Some(BadLabelMagic)
    ensures FirstFailure(lab, img, start, len) == Some(ShortImageHeader) && |lab| >= 8 && |img| >= 8 ==>
      U32(img, 0) == 2051 && U32(img, 4) == U32(lab, 4)
    ensures FirstFailure(lab, img, start, len) == Some(BadImageCount) ==>
      |lab| >= 8 && |img| >= 8 && U32(img, 0) == 2051 && U32(img, 4) != U32(lab, 4)
  {
  }

  /** Every check of the constructor passes. */
  ghost predicate Acceptable(lab: seq<byte>, img: seq<byte>, start: nat, len: nat)
  {
    && |lab| >= 8 && |img| >= 16
    && U32(lab, 0) == 2049
    && U32(lab, 4) <= 100000
    && start + Wanted(U32(lab, 4), len) <= U32(lab, 4)
    && |lab| >= 8 + start + Wanted(U32(lab, 4), len)
    && U32(img, 0) == 2051
    && U32(img, 4) == U32(lab, 4)
    && U32(img, 8) <= 128 && U32(img, 12) <= 128
    && |img| >= 16 + start * ImageSize(img) + Wanted(U32(lab, 4), len) * ImageSize(img)
  }

  /** A pair of files is rejected for some reason exactly when one of the checks fails. */
  lemma {:induction false} FirstFailureIffNotAcceptable(lab: seq<byte>, img: seq<byte>, start: nat, len: nat)
    ensures FirstFailure(lab, img, start, len) == None <==> Acceptable(lab, img, start, len)
  {
  }

  /** m is the largest label, or 0 when there is none larger (mnist.hpp:115-119). */
  ghost predicate IsMaxLabel(labels: seq<byte>, m: byte)
  {
    (forall i :: 0 <= i < |labels| ==> labels[i] <= m) && (m == 0 || m in labels)
  }

  /** m holds exactly examples start..start+len-1 of the two accepted files. */
  ghost predicate Loaded(lab: seq<byte>, img: seq<byte>, start: nat, len: nat, m: MNIST)
    requires Acceptable(lab, img, start, len)
  {
    var n := Wanted(U32(lab, 4), len);
    && m.rows == U32(img, 8) && m.cols == U32(img, 12) && m.ct == n
    && m.labels == lab[8 + start .. 8 + start + n]
    && ImagesAt(img, 16 + start * (m.rows * m.cols), m)
    && IsMaxLabel(m.labels, m.maxLabel)
  }

  /** The maxLabel loop of the constructor (mnist.hpp:115-119). */
  method ScanMaxLabel(labels: seq<byte>) returns (m: byte)
    ensures IsMaxLabel(labels, m)
  {
    m := 0;
    for i := 0 to |labels|
      invariant forall k :: 0 <= k < i ==> labels[k] <= m
      invariant m == 0 || m in labels[..i]
    {
      if labels[i] > m {
        m := labels[i];
      }
    }
    assert labels[..|labels|] == labels;
  }

  /** (start + n) * size as start's block followed by n more. */
  lemma SkipThenRead(start: nat, n: nat, size: nat)
    ensures (start + n) * size == start * size + n * size
  {
  }

  /**
   * The constructor (mnist.hpp:35-121) over the two files' bytes: each
   * header field is read and checked in turn, the skipped examples are
   * passed over, and the kept labels are scanned for the largest.
   */
  method Open(lab: seq<byte>, img: seq<byte>, start: nat, len: nat) returns (r: Result<MNIST, LoadError>)
    ensures r.Err? <==> FirstFailure(lab, img, start, len).Some?
    ensures r.Err? ==> FirstFailure(lab, img, start, len) == Some(r.error)
    ensures r.Ok? ==> Acceptable(lab, img, start, len) && Loaded(lab, img, start, len, r.value)
  {
    FirstFailureIffNotAcceptable(lab, img, start, len);
    if |lab| < 4 {
      return Err(ShortLabelHeader);
    }
    var magic := U32(lab, 0);
    if magic != 2049 {
      return Err(BadLabelMagic);
    }
    if |lab| < 8 {
      return Err(ShortLabelHeader);
    }
    var ct := U32(lab, 4);
    if ct > 100000 {
      return Err(BadLabelCount);
    }
    var n := if len == 0 then ct else len;
    if start + n > ct {
      return Err(BadRange);
    }
    if |lab| < 8 + start + n {
      return Err(ShortLabels);
    }
    var labels := lab[8 + start .. 8 + start + n];
    if |img| < 4 {
      return Err(ShortImageHeader);
    }
    magic := U32(img, 0);
    if magic != 2051 {
      return Err(BadImageMagic);
    }
    if |img| < 8 {
      return Err(ShortImageHeader);
    }
    var ct2 := U32(img, 4);
    if ct2 != ct {
      return Err(BadImageCount);
    }
    if |img| < 16 {
      return Err(ShortImageHeader);
    }
    var rows, cols := U32(img, 8), U32(img, 12);
    if rows > 128 || cols > 128 {
      return Err(BadDimensions);
    }
    var size := rows * cols;
    if |img| < 16 + start * size + n * size {
      return Err(ShortImages);
    }
    var imgs := img[16 + start * size .. 16 + start * size + n * size];
    var maxLabel := ScanMaxLabel(labels);
    return Ok(MNIST(rows, cols, n, labels, imgs, maxLabel));
  }

  /** getCount (mnist.hpp:135-137): the number of examples kept. */
  function GetCount(m: MNIST): (r: nat)
    ensures r == m.ct
  {
    m.ct
  }

  /** getLabel (mnist.hpp:158-160). */
  function GetLabel(m: MNIST, n: nat): (r: byte)
    requires n < |m.labels|
    ensures r == m.labels[n]
  {
    m.labels[n]
  }

  /** getImg (mnist.hpp:175-177): image n starts rows*cols*n bytes in. */
  function GetImg(m: MNIST, n: nat): (r: seq<byte>)
    requires (n + 1) * (m.rows * m.cols) <= |m.imgs|
    ensures |r| == m.rows * m.cols
  {
    SkipThenRead(n, 1, m.rows * m.cols);
    m.imgs[m.rows * m.cols * n .. m.rows * m.cols * n + m.rows * m.cols]
  }

  /** getPix (mnist.hpp:184-187): byte x + y*cols of image n. */
  function GetPix(m: MNIST, n: nat, x: nat, y: nat): (r: byte)
    requires (n + 1) * (m.rows * m.cols) <= |m.imgs| && x + y * m.cols < m.rows * m.cols
    ensures m.rows * m.cols * n + x + y * m.cols < |m.imgs|
    ensures r == m.imgs[m.rows * m.cols * n + x + y * m.cols]
  {
    GetImg(m, n)[x + y * m.cols]
  }

  /** On success the count is the number of examples asked for (len, or all when len is 0). */
  lemma {:induction false} OpenedCount(lab: seq<byte>, img: seq<byte>, start: nat, len: nat, m: MNIST)
    requires Acceptable(lab, img, start, len) && Loaded(lab, img, start, len, m)
    ensures GetCount(m) == (if len == 0 then U32(lab, 4) else len)
    ensures len == 0 ==> start == 0
  {
  }

  /** Label n of a loaded set is the label file's byte 8+start+n. */
  lemma {:induction false} OpenedLabel(lab: seq<byte>, img: seq<byte>, start: nat, len: nat, m: MNIST, n: nat)
    requires Acceptable(lab, img, start, len) && Loaded(lab, img, start, len, m) && n < m.ct
    ensures GetLabel(m, n) == lab[8 + start + n]
    ensures GetLabel(m, n) <= m.maxLabel
  {
  }

  /** m's images are the bytes of img from base on, image after image. */
  ghost predicate ImagesAt(img: seq<byte>, base: nat, m: MNIST)
  {
    base + m.ct * (m.rows * m.cols) <= |img| && m.imgs == img[base .. base + m.ct * (m.rows * m.cols)]
  }

  /** Pixel (x, y) of image n is byte n*rows*cols + x + y*cols of the loaded images, so for a loaded set byte 16 + (start+n)*rows*cols + x + y*cols of the image file. */
  lemma {:induction false} OpenedPixel(img: seq<byte>, base: nat, m: MNIST, n: nat, x: nat, y: nat)
    requires ImagesAt(img, base, m) && n < m.ct && x < m.cols && y < m.rows
    ensures (n + 1) * (m.rows * m.cols) <= |m.imgs| && x + y * m.cols < m.rows * m.cols
    ensures base + n * (m.rows * m.cols) + x + y * m.cols < |img|
    ensures GetPix(m, n, x, y) == img[base + n * (m.rows * m.cols) + x + y * m.cols]
  {
    var size := m.rows * m.cols;
    var k := x + y * m.cols;
    MulMonotone(n + 1, m.ct, size);
    SkipThenRead(n, 1, size);
    RowMajor(x, y, m.rows, m.cols);
    assert GetPix(m, n, x, y) == m.imgs[size * n + k];
  }

  lemma MulMonotone(a: nat, b: nat, c: nat)
    requires a <= b
    ensures a * c <= b * c
  {
  }

  /** Cell (x, y) of a rows-by-cols image laid out row after row is inside it. */
  lemma RowMajor(x: nat, y: nat, rows: nat, cols: nat)
    requires x < cols && y < rows
    ensures x + y * cols < rows * cols
  {
    SkipThenRead(y, 1, cols);
    MulMonotone(y + 1, rows, cols);
  }
}
