/**
 * The name a saved photo is downloaded under, `foto-<camera>-<id>.jpg`, with
 * the id written in decimal as a JavaScript template literal writes a
 * non-negative integer. A parser for such names is the partner that shows
 * the name determines the camera and the id.
 */
module Naming {
  import opened Optional

  predicate IsDigit(c: char) {
    '0' <= c <= '9'
  }

  predicate AllDigits(s: string) {
    forall i :: 0 <= i < |s| ==> IsDigit(s[i])
  }

  function DigitChar(d: nat): (c: char)
    requires d < 10
    ensures IsDigit(c) && c as int - '0' as int == d
  {
    (d + '0' as int) as char
  }

  /** The decimal numeral of `n`, most significant digit first, without leading zeros. */
  function DecimalString(n: nat): (s: string)
    ensures 1 <= |s| && AllDigits(s)
    ensures s[0] == '0' ==> n == 0
    decreases n
  {
    if n < 10 then [DigitChar(n)] else DecimalString(n / 10) + [DigitChar(n % 10)]
  }

  /** The value of a string of decimal digits. */
  function DecimalValue(s: string): nat
    requires AllDigits(s)
  {
    if s == [] then 0 else DecimalValue(s[..|s| - 1]) * 10 + (s[|s| - 1] as int - '0' as int)
  }

  /** Reading a numeral back gives the number it was written from. */
  lemma {:induction false} DecimalRoundTrip(n: nat)
    ensures DecimalValue(DecimalString(n)) == n
    decreases n
  {
    var s := DecimalString(n);
    if n >= 10 {
      DecimalRoundTrip(n / 10);
      assert s[..|s| - 1] == DecimalString(n / 10);
    }
  }

  const Prefix: string := "foto-"
  const Suffix: string := ".jpg"

  /** The `download` attribute `savePhoto` gives the link for a photo. */
  function DownloadName(camera: string, id: nat): (name: string)
    ensures |name| > |Prefix| + |camera| + |Suffix|
    ensures name[..|Prefix|] == Prefix
    ensures name[|name| - |Suffix|..] == Suffix
  {
    Prefix + camera + "-" + DecimalString(id) + Suffix
  }

  /** The first position of `c` in `s`, or `|s|` when `c` does not occur. */
  function IndexOf(s: string, c: char): (k: nat)
    ensures k <= |s|
    ensures forall i :: 0 <= i < k ==> s[i] != c
    ensures k < |s| ==> s[k] == c
  {
    if s == [] || s[0] == c then 0 else 1 + IndexOf(s[1..], c)
  }

  /** Splits a download name back into its camera label and id. */
  function ParseDownloadName(name: string): Option<(string, nat)>
  {
    if |name| < |Prefix| + |Suffix| || name[..|Prefix|] != Prefix || name[|name| - |Suffix|..] != Suffix then None
    else
      var middle := name[|Prefix|..|name| - |Suffix|];
      var k := IndexOf(middle, '-');
      if k == |middle| then None
      else
        var digits := middle[k + 1..];
        if digits == [] || !AllDigits(digits) then None
        else Some((middle[..k], DecimalValue(digits)))
  }

  /** A camera label without a dash and an id are recovered from the name. */
  lemma DownloadNameRoundTrip(camera: string, id: nat)
    requires '-' !in camera
    ensures ParseDownloadName(DownloadName(camera, id)) == Some((camera, id))
  {
    var name := DownloadName(camera, id);
    var digits := DecimalString(id);
    var middle := camera + "-" + digits;
    assert name == Prefix + middle + Suffix;
    assert name[|Prefix|..|name| - |Suffix|] == middle;
    assert forall i :: 0 <= i < |camera| ==> middle[i] == camera[i];
    assert middle[|camera|] == '-';
    assert IndexOf(middle, '-') == |camera|;
    assert middle[|camera| + 1..] == digits;
    assert middle[..|camera|] == camera;
    DecimalRoundTrip(id);
  }

  /** Photos with different ids are never downloaded under the same name. */
  lemma DownloadNameInjective(camera1: string, id1: nat, camera2: string, id2: nat)
    requires '-' !in camera1 && '-' !in camera2
    requires DownloadName(camera1, id1) == DownloadName(camera2, id2)
    ensures camera1 == camera2 && id1 == id2
  {
    DownloadNameRoundTrip(camera1, id1);
    DownloadNameRoundTrip(camera2, id2);
  }
}
