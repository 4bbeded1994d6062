/** The digit list screen (app/pi-digits.tsx): the first `count` digits of pi, where `count`
    comes from a text field, shown in rows of ten, each row labelled with the offset of its
    first digit. */
module PiDigits {
  import opened Wrappers
  import JsText

  function Min(a: int, b: int): int {
    if a <= b then a else b
  }

  /** `Math.min(parseInt(displayCount, 10) || 100, PI_DIGITS.length)`: a text that does not
      start with a number, or reads as 0, asks for 100 digits; the count never exceeds the
      number of digits available. A negative number is kept. */
  function DisplayCount(displayCount: string, available: nat): (count: int)
    ensures count <= available
    ensures JsText.ParseInt(displayCount) in {None, Some(0)} ==> count == Min(100, available)
    ensures JsText.ParseInt(displayCount).Some? && JsText.ParseInt(displayCount).value != 0 ==>
      count == Min(JsText.ParseInt(displayCount).value, available)
  {
    var parsed := JsText.ParseInt(displayCount);
    var requested := if parsed.Some? && parsed.value != 0 then parsed.value else 100;
    Min(requested, available)
  }

  /** `PI_DIGITS.substring(0, count)`: a prefix of the digits, empty for a negative count. */
  function DisplayedDigits(digits: string, count: int): (shown: string)
    ensures |shown| <= |digits| && shown == digits[..|shown|]
    ensures count <= 0 ==> shown == []
    ensures 0 <= count <= |digits| ==> |shown| == count
  {
    JsText.Substring(digits, 0, count)
  }

  /** Whatever is typed in the field, the list shows a prefix of the digits, of at most 100
      digits when the text is not a positive number. */
  lemma DisplayedIsPrefix(digits: string, displayCount: string)
    ensures var shown := DisplayedDigits(digits, DisplayCount(displayCount, |digits|));
      shown == digits[..|shown|]
    ensures JsText.ParseInt(displayCount).None? ==>
      |DisplayedDigits(digits, DisplayCount(displayCount, |digits|))| == Min(100, |digits|)
  {
  }

  /** The groups joined back together. */
  function Concat(groups: seq<string>): string {
    if groups == [] then [] else Concat(groups[..|groups| - 1]) + groups[|groups| - 1]
  }

  /** `formatDigits(digits)`: the text cut into consecutive groups of ten characters, the
      last one shorter when the length is not a multiple of ten. */
  method FormatDigits(digits: string) returns (formatted: seq<string>)
    ensures Concat(formatted) == digits
    ensures |formatted| == (|digits| + 9) / 10
    ensures forall j :: 0 <= j < |formatted| ==> formatted[j] == digits[10 * j .. Min(10 * j + 10, |digits|)]
    ensures forall j :: 0 <= j < |formatted| - 1 ==> |formatted[j]| == 10
    ensures formatted != [] ==> 1 <= |formatted[|formatted| - 1]| <= 10
  {
    formatted := [];
    var i := 0;
    while i < |digits|
      invariant i == 10 * |formatted|
      invariant i <= |digits| || (i < |digits| + 10 && i % 10 == 0)
      invariant Concat(formatted) == digits[..Min(i, |digits|)]
      invariant forall j :: 0 <= j < |formatted| ==> formatted[j] == digits[10 * j .. Min(10 * j + 10, |digits|)]
    {
      var group := JsText.Substring(digits, i, i + 10);
      assert group == digits[i .. Min(i + 10, |digits|)];
      formatted := formatted + [group];
      i := i + 10;
    }
  }

  /** `(index * 10).toString().padStart(4, '0')`: the offset of the group's first digit. */
  function GroupLabel(index: nat): string {
    JsText.PadStart(JsText.NatToString(index * 10), 4, '0')
  }

  /** A label reads back as the offset of its group, is at least four characters long, and
      only needs more when the offset itself has more than four digits. */
  lemma GroupLabelReadsBack(index: nat)
    ensures JsText.ParseInt(GroupLabel(index)) == Some(10 * index)
    ensures |GroupLabel(index)| == if |JsText.NatToString(10 * index)| >= 4 then |JsText.NatToString(10 * index)| else 4
    ensures JsText.AllDigits(GroupLabel(index))
  {
    JsText.ParseIntOfZeroPadded(index * 10, 4);
    var s := JsText.NatToString(index * 10);
    if |s| < 4 {
      var z := JsText.Repeat('0', 4 - |s|);
      assert GroupLabel(index) == z + s;
      assert forall i :: 0 <= i < |z + s| ==> JsText.IsDigit((z + s)[i]) by {
        forall i | 0 <= i < |z + s| ensures JsText.IsDigit((z + s)[i]) {
          if i < |z| { assert (z + s)[i] == '0'; } else { assert (z + s)[i] == s[i - |z|]; }
        }
      }
    }
  }

  /** Different rows never carry the same label. */
  lemma GroupLabelsAreDistinct(i: nat, j: nat)
    requires i != j
    ensures GroupLabel(i) != GroupLabel(j)
  {
    GroupLabelReadsBack(i);
    GroupLabelReadsBack(j);
  }
}
