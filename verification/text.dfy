/** String helpers shared by the prompt and URL builders: `Array.prototype.join`
    and "occurs somewhere inside". */
module Text {

  /** `items.join(sep)` of JavaScript: the items in order, separated by `sep`. */
  function Join(items: seq<string>, sep: string): string
  {
    if |items| == 0 then ""
    else if |items| == 1 then items[0]
    else items[0] + sep + Join(items[1..], sep)
  }

  /** `part` occurs in `text` starting at index `i`. */
  predicate OccursAt(text: string, part: string, i: int)
  {
    0 <= i <= |text| - |part| && text[i..i + |part|] == part
  }

  /** `part` occurs in `text` as a contiguous piece. */
  ghost predicate Contains(text: string, part: string)
  {
    exists i :: OccursAt(text, part, i)
  }

  lemma ContainsMiddle(before: string, part: string, after: string)
    ensures Contains(before + part + after, part)
  {
    var text := before + part + after;
    assert text[|before|..|before| + |part|] == part;
    assert OccursAt(text, part, |before|);
  }

  /** An occurrence inside a piece is an occurrence inside anything built around the piece. */
  lemma ContainsAround(before: string, middle: string, after: string, part: string)
    requires Contains(middle, part)
    ensures Contains(before + middle + after, part)
  {
    var i :| OccursAt(middle, part, i);
    var text := before + middle + after;
    assert text[|before| + i..|before| + i + |part|] == middle[i..i + |part|];
    assert OccursAt(text, part, |before| + i);
  }

  /** An occurrence inside an occurrence is an occurrence. */
  lemma ContainsTransitive(text: string, middle: string, part: string)
    requires Contains(text, middle) && Contains(middle, part)
    ensures Contains(text, part)
  {
    var i :| OccursAt(text, middle, i);
    var j :| OccursAt(middle, part, j);
    forall k | 0 <= k < |part|
      ensures text[i + j + k] == part[k]
    {
      assert part[k] == middle[j..j + |part|][k] == middle[j + k];
      assert middle[j + k] == text[i..i + |middle|][j + k];
    }
    assert text[i + j..i + j + |part|] == part;
    assert OccursAt(text, part, i + j);
  }

  /** Every item of the list is spelled out, unaltered, in the joined text. */
  lemma {:induction false} JoinContainsEach(items: seq<string>, sep: string, k: nat)
    requires k < |items|
    ensures Contains(Join(items, sep), items[k])
  {
    if |items| == 1 {
      ContainsMiddle("", items[0], "");
      assert "" + items[0] + "" == items[0];
    } else if k == 0 {
      ContainsMiddle("", items[0], sep + Join(items[1..], sep));
      assert "" + items[0] + (sep + Join(items[1..], sep)) == Join(items, sep);
    } else {
      JoinContainsEach(items[1..], sep, k - 1);
      ContainsAround(items[0] + sep, Join(items[1..], sep), "", items[k]);
      assert items[0] + sep + Join(items[1..], sep) + "" == Join(items, sep);
    }
  }

  /** `s.slice(0, n)` / `s.substring(0, n)`: the first `n` characters, or all of them. */
  function Truncate(s: string, n: nat): (r: string)
    ensures |r| <= n && r <= s
    ensures |s| <= n ==> r == s
    ensures |s| >= n ==> |r| == n
  {
    if |s| <= n then s else s[..n]
  }
}
