/** Bounding a long text result: the longest prefix that fits together with a marker that says how much
    was left out. */
module BoundedOutput {
  import opened Truncation

  function Marker(omitted: nat): string {
    "[tool output truncated: " + Digits(omitted) + " chars omitted]"
  }

  /** The text that keeps `kept` characters. */
  function Kept(content: string, kept: nat): string
    requires kept <= |content|
  {
    content[..kept] + (if kept > 0 then "\n" else "") + Marker(|content| - kept)
  }

  function KeptLength(total: nat, kept: nat): nat
    requires kept <= total
  {
    kept + (if kept > 0 then 1 else 0) + |Marker(total - kept)|
  }

  /** One more gains at most one digit. */
  lemma {:induction false} DigitsGrowSlowly(n: nat)
    ensures |Digits(n)| <= |Digits(n + 1)| <= |Digits(n)| + 1
    decreases n
  {
    if n >= 10 {
      if (n + 1) / 10 != n / 10 {
        assert (n + 1) / 10 == n / 10 + 1;
        DigitsGrowSlowly(n / 10);
      }
    }
  }

  /** Keeping more never gives a shorter text, although the marker itself can get shorter. */
  lemma {:induction false} KeptLengthMonotone(total: nat, fewer: nat, more: nat)
    requires fewer <= more <= total
    ensures KeptLength(total, fewer) <= KeptLength(total, more)
    decreases more - fewer
  {
    if fewer < more {
      DigitsGrowSlowly(total - more);
      assert total - (more - 1) == total - more + 1;
      KeptLengthMonotone(total, fewer, more - 1);
    }
  }

  predicate MarkerFits(content: string, limit: nat) {
    |Marker(|content|)| <= limit
  }

  /** Some kept length fits exactly when the marker alone does; the lengths that fit are then those up to
      one unique longest. */
  lemma FitsIffMarkerFits(content: string, limit: nat, kept: nat)
    requires kept <= |content| && KeptLength(|content|, kept) <= limit
    ensures MarkerFits(content, limit)
    ensures forall fewer :: 0 <= fewer <= kept ==> KeptLength(|content|, fewer) <= limit
  {
    KeptLengthMonotone(|content|, 0, kept);
    forall fewer | 0 <= fewer <= kept
      ensures KeptLength(|content|, fewer) <= limit
    {
      KeptLengthMonotone(|content|, fewer, kept);
    }
  }

  /** The scan from the longest candidate down. The text never exceeds the limit. When a marker fits, the
      kept prefix is the longest that fits and kept plus omitted characters are the original length; when
      none fits the text is cut at the limit without a marker. */
  method BoundedTruncatedContent(content: string, limit: nat) returns (bounded: string, omitted: int, kept: nat)
    ensures |bounded| <= limit
    ensures kept <= |content| && kept <= limit
    ensures MarkerFits(content, limit) ==>
              && bounded == Kept(content, kept) && kept + omitted == |content|
              && forall k :: 0 <= k <= |content| ==> (KeptLength(|content|, k) <= limit <==> k <= kept)
    ensures !MarkerFits(content, limit) ==>
              && bounded == content[..kept] && omitted == |content| - limit
              && (kept == limit || kept == |content|)
    ensures kept + omitted == |content| <==> MarkerFits(content, limit) || limit <= |content|
  {
    var top: nat := if |content| < limit then |content| else limit;
    var left := top + 1;
    while left > 0
      invariant 0 <= left <= top + 1
      invariant forall k :: left <= k <= |content| ==> KeptLength(|content|, k) > limit
    {
      left := left - 1;
      kept := left;
      omitted := |content| - kept;
      var marker := Marker(omitted);
      var separator := if kept > 0 then "\n" else "";
      if kept + |separator| + |marker| <= limit {
        FitsIffMarkerFits(content, limit, kept);
        return content[..kept] + separator + marker, omitted, kept;
      }
    }
    assert KeptLength(|content|, 0) > limit;
    return content[..top], |content| - limit, top;
  }
}
